/** Runs in which a candidate is taken from the shared cache, kept after a failure or given up. */
module CandidateRuns {
  import opened Options
  import opened Database
  import opened KaggleRefs
  import opened JobProtocol
  import opened Scenarios

  /** States one after another with the actions that lead from each to the next. */
  ghost predicate Path(states: seq<JobState>, actions: seq<Action>, remote: Remote) {
    |states| == |actions| + 1 && forall i :: 0 <= i < |actions| ==> Steps(states[i], actions[i], states[i + 1], remote)
  }

  lemma {:induction false} PathDrives(states: seq<JobState>, actions: seq<Action>, remote: Remote)
    requires Path(states, actions, remote)
    ensures Drive(states[0], actions, remote) == Some(states[|actions|])
    decreases |actions|
  {
    hide Steps, Enabled, Step;
    if actions != [] {
      assert Steps(states[0], actions[0], states[1], remote);
      assert Path(states[1..], actions[1..], remote) by {
        forall i | 0 <= i < |actions| - 1 ensures Steps(states[1..][i], actions[1..][i], states[1..][i + 1], remote) {
          assert Steps(states[i + 1], actions[i + 1], states[i + 2], remote);
        }
      }
      PathDrives(states[1..], actions[1..], remote);
      StepsTo(states[0], actions[0], states[1], remote);
    }
  }

  lemma StepsTo(s: JobState, a: Action, t: JobState, remote: Remote)
    requires Steps(s, a, t, remote)
    ensures Enabled(s, a, remote) && Step(s, a, remote) == t
  {
    hide Step, Enabled;
  }

  // ---- a ready cache entry ----

  /** A job without intent, upload or call: its row, its thread, and what was made of its kernel metadata. */
  function Plain(ref: string, row: Row, threads: map<nat, Thread>, sources: seq<string>, pushes: seq<PushRecord>): JobState {
    JobState(row, threads != map[], threads, multiset{}, map[], map[], map[], sources, 7, false, false, [], pushes,
             row.status in {PushingKernel, WaitingKernel, DownloadingOutput, Complete})
  }

  function One(k: nat, kind: Kind, pc: Pc): map<nat, Thread> {
    map[k := Thread(kind, pc)]
  }

  lemma OneMoves(k: nat, kind: Kind, pc: Pc, next: Pc)
    ensures One(k, kind, pc)[k := One(k, kind, pc)[k].(pc := next)] == One(k, kind, next)
    ensures One(k, kind, pc) - {k} == map[] && map[][k := Thread(kind, pc)] == One(k, kind, pc) && One(k, kind, pc) != map[]
  {
  }

  lemma OneItem(item: Item)
    ensures multiset{} + multiset{item} == multiset{item} && multiset{item} - multiset{item} == multiset{}
  {
  }

  /** A new job that finds cache entry r. */
  function ToPush(sources: seq<string>, r: Receipt): seq<Action> {
    [Intake(StartAssembly), Intake(AssemblyDone(7, sources)), Server(Dequeue(ProcessItem, 0)), Run(0, Acquire(Some(r))),
     Run(0, VerifyCached), Run(0, PinCached), Run(0, RecordCached), Run(0, Submit), Run(0, PushCall(false))]
  }

  /** The kernel metadata as it is pushed. */
  function Ready(ref: string, sources: seq<string>, r: Receipt): seq<string> {
    Pinned(Rewritten(sources, ref), ref, r.version)
  }

  function PushOf(ref: string, sources: seq<string>, r: Receipt): PushRecord {
    PushRecord(ref, r, Ready(ref, sources, r), None)
  }

  function CachedStates(ref: string, sources: seq<string>, r: Receipt): seq<JobState> {
    var clean, pinned := Rewritten(sources, ref), Ready(ref, sources, r);
    [Created(ref, false, 0),
     InAssembly(ref),
     Plain(ref, RowAt(ref, Queued, 15), map[], sources, []).(queue := multiset{ProcessItem}),
     Plain(ref, RowAt(ref, Queued, 15), One(0, Process, Begin), sources, []),
     Plain(ref, RowAt(ref, Queued, 15), One(0, Process, CacheVerify(r)), clean, []),
     Plain(ref, RowAt(ref, Queued, 15), One(0, Process, CachePin(r)), clean, []),
     Plain(ref, RowAt(ref, Queued, 15), One(0, Process, CacheRecord(r)), pinned, []),
     Plain(ref, RowAt(ref, Queued, 40), One(0, Process, Pc.Ready(r)), pinned, []),
     Plain(ref, RowAt(ref, PushingKernel, 45), One(0, Process, Push(r)), pinned, []),
     Plain(ref, RowAt(ref, PushingKernel, 45), One(0, Process, Finish(Complete, 0)), pinned, [PushOf(ref, sources, r)])]
  }

  lemma CachedPath(ref: string, sources: seq<string>, r: Receipt, remote: Remote)
    requires Serves(remote, ref, r)
    ensures Path(CachedStates(ref, sources, r), ToPush(sources, r), remote)
  {
    hide Steps, Plain, Ready, Rewritten, One, PushOf, InAssembly, Created, RowAt, Serves;
    var states, actions := CachedStates(ref, sources, r), ToPush(sources, r);
    Start1(ref, remote);
    Cached2(ref, sources, remote);
    Cached3(ref, sources, remote);
    Cached4(ref, sources, r, remote);
    Cached5(ref, Rewritten(sources, ref), r, remote);
    Cached6(ref, sources, r, remote);
    Cached7(ref, Ready(ref, sources, r), r, remote);
    Cached8(ref, Ready(ref, sources, r), r, remote);
    Cached9(ref, sources, r, remote);
    forall i | 0 <= i < |actions| ensures Steps(states[i], actions[i], states[i + 1], remote) {
      if i < 3 { } else if i < 6 { } else { }
    }
  }

  lemma Cached2(ref: string, sources: seq<string>, remote: Remote)
    ensures Steps(InAssembly(ref), Intake(AssemblyDone(7, sources)),
                  Plain(ref, RowAt(ref, Queued, 15), map[], sources, []).(queue := multiset{ProcessItem}), remote)
  {
    OneItem(ProcessItem);
  }

  lemma Cached3(ref: string, sources: seq<string>, remote: Remote)
    ensures Steps(Plain(ref, RowAt(ref, Queued, 15), map[], sources, []).(queue := multiset{ProcessItem}), Server(Dequeue(ProcessItem, 0)),
                  Plain(ref, RowAt(ref, Queued, 15), One(0, Process, Begin), sources, []), remote)
  {
    hide One;
    OneItem(ProcessItem);
    OneMoves(0, Process, Begin, Begin);
  }

  lemma Cached4(ref: string, sources: seq<string>, r: Receipt, remote: Remote)
    ensures Steps(Plain(ref, RowAt(ref, Queued, 15), One(0, Process, Begin), sources, []), Run(0, Acquire(Some(r))),
                  Plain(ref, RowAt(ref, Queued, 15), One(0, Process, CacheVerify(r)), Rewritten(sources, ref), []), remote)
  {
    hide Rewritten;
    OneMoves(0, Process, Begin, CacheVerify(r));
  }

  lemma Cached5(ref: string, clean: seq<string>, r: Receipt, remote: Remote)
    requires Serves(remote, ref, r)
    ensures Steps(Plain(ref, RowAt(ref, Queued, 15), One(0, Process, CacheVerify(r)), clean, []), Run(0, VerifyCached),
                  Plain(ref, RowAt(ref, Queued, 15), One(0, Process, CachePin(r)), clean, []), remote)
  {
    OneMoves(0, Process, CacheVerify(r), CachePin(r));
  }

  lemma Cached6(ref: string, sources: seq<string>, r: Receipt, remote: Remote)
    ensures Steps(Plain(ref, RowAt(ref, Queued, 15), One(0, Process, CachePin(r)), Rewritten(sources, ref), []), Run(0, PinCached),
                  Plain(ref, RowAt(ref, Queued, 15), One(0, Process, CacheRecord(r)), Ready(ref, sources, r), []), remote)
  {
    hide Rewritten, Pinned;
    OneMoves(0, Process, CachePin(r), CacheRecord(r));
  }

  lemma Cached7(ref: string, pinned: seq<string>, r: Receipt, remote: Remote)
    ensures Steps(Plain(ref, RowAt(ref, Queued, 15), One(0, Process, CacheRecord(r)), pinned, []), Run(0, RecordCached),
                  Plain(ref, RowAt(ref, Queued, 40), One(0, Process, Pc.Ready(r)), pinned, []), remote)
  {
    OneMoves(0, Process, CacheRecord(r), Pc.Ready(r));
  }

  lemma Cached8(ref: string, pinned: seq<string>, r: Receipt, remote: Remote)
    ensures Steps(Plain(ref, RowAt(ref, Queued, 40), One(0, Process, Pc.Ready(r)), pinned, []), Run(0, Submit),
                  Plain(ref, RowAt(ref, PushingKernel, 45), One(0, Process, Push(r)), pinned, []), remote)
  {
    OneMoves(0, Process, Pc.Ready(r), Push(r));
  }

  lemma Cached9(ref: string, sources: seq<string>, r: Receipt, remote: Remote)
    ensures Steps(Plain(ref, RowAt(ref, PushingKernel, 45), One(0, Process, Push(r)), Ready(ref, sources, r), []), Run(0, PushCall(false)),
                  Plain(ref, RowAt(ref, PushingKernel, 45), One(0, Process, Finish(Complete, 0)), Ready(ref, sources, r), [PushOf(ref, sources, r)]), remote)
  {
    hide Rewritten, Pinned;
    OneMoves(0, Process, Push(r), Finish(Complete, 0));
    assert [] + [PushOf(ref, sources, r)] == [PushOf(ref, sources, r)];
  }

  /** A new job that finds a ready cache entry pushes its kernel with that version, every source of its dataset pinned to it,
      and without any upload or intent of its own. */
  lemma CacheHitPushes(ref: string, sources: seq<string>, r: Receipt, remote: Remote)
    requires Serves(remote, ref, r)
    ensures var d := Drive(Created(ref, false, 0), ToPush(sources, r), remote);
      && d.Some? && d.value.calls == [] && d.value.view == map[] && d.value.children == map[]
      && |d.value.pushes| == 1 && d.value.pushes[0].receipt == r
      && (RefSlug(ref) != "" ==> AllPinned(d.value.pushes[0].sources, ref, r.version))
  {
    hide Drive, Rewritten, Pinned, RefSlug, AllPinned, Serves, Created;
    CachedPath(ref, sources, r, remote);
    PathDrives(CachedStates(ref, sources, r), ToPush(sources, r), remote);
    if RefSlug(ref) != "" { PinsEverySource(Rewritten(sources, ref), ref, r.version); }
  }

  // ---- a power failure during the push ----

  const VISIBLE := Observed(Visible, false, true, false, 0, 0, [])

  const TO_RESULT: seq<Action> := [
    Crash(PowerFailure), Recover(VISIBLE), Server(Dequeue(ResumeItem(Complete), 1)),
    Monitor(1, ReadRow(WaitingKernel, 60)), Monitor(1, WriteRow), Monitor(1, ReadRow(DownloadingOutput, 85)), Monitor(1, WriteRow), Monitor(1, Deliver)]

  function ResumedStates(ref: string, sources: seq<string>, r: Receipt): seq<JobState> {
    var pinned, pushes := Ready(ref, sources, r), [PushOf(ref, sources, r)];
    [Plain(ref, RowAt(ref, PushingKernel, 45), One(0, Process, Finish(Complete, 0)), pinned, pushes),
     Plain(ref, RowAt(ref, PushingKernel, 45), map[], pinned, pushes).(recovering := true),
     Plain(ref, RowAt(ref, PushingKernel, 45), map[], pinned, pushes).(queue := multiset{ResumeItem(Complete)}),
     Plain(ref, RowAt(ref, PushingKernel, 45), One(1, Resume, Finish(Complete, 0)), pinned, pushes),
     Plain(ref, RowAt(ref, PushingKernel, 45), One(1, Resume, FinishWrite(Complete, 0, PushingKernel, WaitingKernel, 60, 1)), pinned, pushes),
     Plain(ref, RowAt(ref, WaitingKernel, 60), One(1, Resume, Finish(Complete, 1)), pinned, pushes),
     Plain(ref, RowAt(ref, WaitingKernel, 60), One(1, Resume, FinishWrite(Complete, 1, WaitingKernel, DownloadingOutput, 85, 2)), pinned, pushes),
     Plain(ref, RowAt(ref, DownloadingOutput, 85), One(1, Resume, Finish(Complete, 2)), pinned, pushes),
     Plain(ref, RowAt(ref, Complete, 100), map[], pinned, pushes)]
  }

  lemma ResumedPath(ref: string, sources: seq<string>, r: Receipt, remote: Remote)
    ensures Path(ResumedStates(ref, sources, r), TO_RESULT, remote)
  {
    hide Steps, Plain, Ready, One, PushOf, RowAt;
    var states, pinned, pushes := ResumedStates(ref, sources, r), Ready(ref, sources, r), [PushOf(ref, sources, r)];
    Resumed1(ref, pinned, pushes, remote);
    Resumed2(ref, pinned, pushes, remote);
    Resumed3(ref, pinned, pushes, remote);
    Resumed4(ref, pinned, pushes, remote);
    Resumed5(ref, pinned, pushes, remote);
    Resumed6(ref, pinned, pushes, remote);
    Resumed7(ref, pinned, pushes, remote);
    Resumed8(ref, pinned, pushes, remote);
    forall i | 0 <= i < |TO_RESULT| ensures Steps(states[i], TO_RESULT[i], states[i + 1], remote) {
      if i < 3 { } else if i < 6 { } else { }
    }
  }

  lemma Resumed1(ref: string, pinned: seq<string>, pushes: seq<PushRecord>, remote: Remote)
    ensures Steps(Plain(ref, RowAt(ref, PushingKernel, 45), One(0, Process, Finish(Complete, 0)), pinned, pushes), Crash(PowerFailure),
                  Plain(ref, RowAt(ref, PushingKernel, 45), map[], pinned, pushes).(recovering := true), remote)
  {
  }

  lemma Resumed2(ref: string, pinned: seq<string>, pushes: seq<PushRecord>, remote: Remote)
    ensures Steps(Plain(ref, RowAt(ref, PushingKernel, 45), map[], pinned, pushes).(recovering := true), Recover(VISIBLE),
                  Plain(ref, RowAt(ref, PushingKernel, 45), map[], pinned, pushes).(queue := multiset{ResumeItem(Complete)}), remote)
  {
    OneItem(ResumeItem(Complete));
  }

  lemma Resumed3(ref: string, pinned: seq<string>, pushes: seq<PushRecord>, remote: Remote)
    ensures Steps(Plain(ref, RowAt(ref, PushingKernel, 45), map[], pinned, pushes).(queue := multiset{ResumeItem(Complete)}),
                  Server(Dequeue(ResumeItem(Complete), 1)),
                  Plain(ref, RowAt(ref, PushingKernel, 45), One(1, Resume, Finish(Complete, 0)), pinned, pushes), remote)
  {
    OneItem(ResumeItem(Complete));
    OneMoves(1, Resume, Finish(Complete, 0), Begin);
  }

  lemma Resumed4(ref: string, pinned: seq<string>, pushes: seq<PushRecord>, remote: Remote)
    ensures Steps(Plain(ref, RowAt(ref, PushingKernel, 45), One(1, Resume, Finish(Complete, 0)), pinned, pushes), Monitor(1, ReadRow(WaitingKernel, 60)),
                  Plain(ref, RowAt(ref, PushingKernel, 45), One(1, Resume, FinishWrite(Complete, 0, PushingKernel, WaitingKernel, 60, 1)), pinned, pushes), remote)
  {
    OneMoves(1, Resume, Finish(Complete, 0), FinishWrite(Complete, 0, PushingKernel, WaitingKernel, 60, 1));
  }

  lemma Resumed5(ref: string, pinned: seq<string>, pushes: seq<PushRecord>, remote: Remote)
    ensures Steps(Plain(ref, RowAt(ref, PushingKernel, 45), One(1, Resume, FinishWrite(Complete, 0, PushingKernel, WaitingKernel, 60, 1)), pinned, pushes),
                  Monitor(1, WriteRow), Plain(ref, RowAt(ref, WaitingKernel, 60), One(1, Resume, Finish(Complete, 1)), pinned, pushes), remote)
  {
    OneMoves(1, Resume, FinishWrite(Complete, 0, PushingKernel, WaitingKernel, 60, 1), Finish(Complete, 1));
  }

  lemma Resumed6(ref: string, pinned: seq<string>, pushes: seq<PushRecord>, remote: Remote)
    ensures Steps(Plain(ref, RowAt(ref, WaitingKernel, 60), One(1, Resume, Finish(Complete, 1)), pinned, pushes), Monitor(1, ReadRow(DownloadingOutput, 85)),
                  Plain(ref, RowAt(ref, WaitingKernel, 60), One(1, Resume, FinishWrite(Complete, 1, WaitingKernel, DownloadingOutput, 85, 2)), pinned, pushes), remote)
  {
    OneMoves(1, Resume, Finish(Complete, 1), FinishWrite(Complete, 1, WaitingKernel, DownloadingOutput, 85, 2));
  }

  lemma Resumed7(ref: string, pinned: seq<string>, pushes: seq<PushRecord>, remote: Remote)
    ensures Steps(Plain(ref, RowAt(ref, WaitingKernel, 60), One(1, Resume, FinishWrite(Complete, 1, WaitingKernel, DownloadingOutput, 85, 2)), pinned, pushes),
                  Monitor(1, WriteRow), Plain(ref, RowAt(ref, DownloadingOutput, 85), One(1, Resume, Finish(Complete, 2)), pinned, pushes), remote)
  {
    OneMoves(1, Resume, FinishWrite(Complete, 1, WaitingKernel, DownloadingOutput, 85, 2), Finish(Complete, 2));
  }

  lemma Resumed8(ref: string, pinned: seq<string>, pushes: seq<PushRecord>, remote: Remote)
    ensures Steps(Plain(ref, RowAt(ref, DownloadingOutput, 85), One(1, Resume, Finish(Complete, 2)), pinned, pushes), Monitor(1, Deliver),
                  Plain(ref, RowAt(ref, Complete, 100), map[], pinned, pushes), remote)
  {
    OneMoves(1, Resume, Finish(Complete, 2), Begin);
  }

  /** The power fails right after the push: the restart sees the kernel, monitors it to its result, and pushes nothing again. */
  lemma CrashedPushCompletes(ref: string, sources: seq<string>, r: Receipt, remote: Remote)
    requires Serves(remote, ref, r)
    ensures var d := Drive(Created(ref, false, 0), ToPush(sources, r) + TO_RESULT, remote);
      d.Some? && d.value.row.status.Complete? && d.value.threads == map[] && d.value.queue == multiset{} && |d.value.pushes| == 1
  {
    hide Drive, Rewritten, Pinned, Serves, Created;
    CachedPath(ref, sources, r, remote);
    PathDrives(CachedStates(ref, sources, r), ToPush(sources, r), remote);
    ResumedPath(ref, sources, r, remote);
    PathDrives(ResumedStates(ref, sources, r), TO_RESULT, remote);
    DriveAppend(Created(ref, false, 0), ToPush(sources, r), TO_RESULT, remote);
  }

  // ---- an accepted candidate ----

  /** After the only upload: its intent is on disk as accepted, and one call was made. */
  function Kept(ref: string, row: Row, threads: map<nat, Thread>, pushes: seq<PushRecord>): JobState {
    var intents := map[ref := Intent(1, 7, Accepted)];
    JobState(row, threads != map[], threads, multiset{}, intents, intents, map[], [], 7, false, false, [Call(ref, Receipt(1, 7))], pushes,
             row.status in {PushingKernel, WaitingKernel, DownloadingOutput, Complete})
  }

  const R := Receipt(1, 7)

  const ANSWER: seq<Action> := [Upload(0, Respond(true)), Upload(0, SyncOutcome), Run(0, UploadReturned), Run(0, AfterUpload)]

  function AnsweredStates(ref: string): seq<JobState> {
    var accepted := map[ref := Intent(1, 7, Accepted)];
    [Unanswered(ref),
     Unanswered(ref).(view := accepted, children := map[0 := Child(R, Settled(true))]),
     Unanswered(ref).(view := accepted, disk := accepted, children := map[0 := Child(R, Done(true))]),
     Kept(ref, RowAt(ref, UploadingDataset, 20), One(0, Process, Uploaded(R)), []),
     Kept(ref, RowAt(ref, WaitingDataset, 35), One(0, Process, Verify(R)), [])]
  }

  lemma AnsweredPath(ref: string, remote: Remote)
    ensures Path(AnsweredStates(ref), ANSWER, remote)
  {
    hide Steps, Unanswered, Kept, One, RowAt;
    var states := AnsweredStates(ref);
    Answered1(ref, remote);
    Answered2(ref, remote);
    Answered3(ref, remote);
    Answered4(ref, remote);
    forall i | 0 <= i < |ANSWER| ensures Steps(states[i], ANSWER[i], states[i + 1], remote) {
      if i < 2 { } else { }
    }
  }

  lemma Answered1(ref: string, remote: Remote)
    ensures Steps(Unanswered(ref), Upload(0, Respond(true)),
                  Unanswered(ref).(view := map[ref := Intent(1, 7, Accepted)], children := map[0 := Child(R, Settled(true))]), remote)
  {
    assert map[ref := Intent(1, 7, Unknown)][ref := Intent(1, 7, Accepted)] == map[ref := Intent(1, 7, Accepted)];
    assert map[0 := Child(R, Called)][0 := Child(R, Settled(true))] == map[0 := Child(R, Settled(true))];
  }

  lemma Answered2(ref: string, remote: Remote)
    ensures var accepted := map[ref := Intent(1, 7, Accepted)];
      Steps(Unanswered(ref).(view := accepted, children := map[0 := Child(R, Settled(true))]), Upload(0, SyncOutcome),
            Unanswered(ref).(view := accepted, disk := accepted, children := map[0 := Child(R, Done(true))]), remote)
  {
    assert map[0 := Child(R, Settled(true))][0 := Child(R, Done(true))] == map[0 := Child(R, Done(true))];
  }

  lemma Answered3(ref: string, remote: Remote)
    ensures var accepted := map[ref := Intent(1, 7, Accepted)];
      Steps(Unanswered(ref).(view := accepted, disk := accepted, children := map[0 := Child(R, Done(true))]), Run(0, UploadReturned),
            Kept(ref, RowAt(ref, UploadingDataset, 20), One(0, Process, Uploaded(R)), []), remote)
  {
    assert map[0 := Child(R, Done(true))] - {0} == map[];
    assert map[0 := Thread(Process, AwaitUpload(0))][0 := Thread(Process, Uploaded(R))] == One(0, Process, Uploaded(R));
  }

  lemma Answered4(ref: string, remote: Remote)
    ensures Steps(Kept(ref, RowAt(ref, UploadingDataset, 20), One(0, Process, Uploaded(R)), []), Run(0, AfterUpload),
                  Kept(ref, RowAt(ref, WaitingDataset, 35), One(0, Process, Verify(R)), []), remote)
  {
    OneMoves(0, Process, Uploaded(R), Verify(R));
  }

  const MISMATCH: seq<Action> := [Err(0, Raise), Err(0, Handle(true, true)), Err(0, Fail)]

  function MismatchStates(ref: string): seq<JobState> {
    var row := RowAt(ref, WaitingDataset, 35);
    [Kept(ref, row, One(0, Process, Verify(R)), []),
     Kept(ref, row, One(0, Process, Raised), []),
     Kept(ref, row, One(0, Process, FailWrite), []),
     Kept(ref, Row(Failed, false, 0, OtherError, NoRecheck, false, false, ref, 0), map[], [])]
  }

  lemma Raised1(ref: string, remote: Remote)
    ensures var row := RowAt(ref, WaitingDataset, 35);
      Steps(Kept(ref, row, One(0, Process, Verify(R)), []), Err(0, Raise), Kept(ref, row, One(0, Process, Raised), []), remote)
  {
    OneMoves(0, Process, Verify(R), Raised);
  }

  lemma Mismatch2(ref: string, remote: Remote)
    ensures var row := RowAt(ref, WaitingDataset, 35);
      Steps(Kept(ref, row, One(0, Process, Raised), []), Err(0, Handle(true, true)), Kept(ref, row, One(0, Process, FailWrite), []), remote)
  {
    OneMoves(0, Process, Raised, FailWrite);
  }

  lemma Mismatch3(ref: string, remote: Remote)
    ensures Steps(Kept(ref, RowAt(ref, WaitingDataset, 35), One(0, Process, FailWrite), []), Err(0, Fail),
                  Kept(ref, Row(Failed, false, 0, OtherError, NoRecheck, false, false, ref, 0), map[], []), remote)
  {
    OneMoves(0, Process, FailWrite, Begin);
  }

  lemma MismatchPath(ref: string, remote: Remote)
    ensures Path(MismatchStates(ref), MISMATCH, remote)
  {
    hide Steps, Kept, One, RowAt;
    Raised1(ref, remote);
    Mismatch2(ref, remote);
    Mismatch3(ref, remote);
  }

  lemma Answers(ref: string, remote: Remote)
    ensures Drive(Created(ref, false, 0), START + UPLOAD + CALL + ANSWER, remote)
         == Some(Kept(ref, RowAt(ref, WaitingDataset, 35), One(0, Process, Verify(R)), []))
  {
    hide Drive, Unanswered, Created, Kept, One, RowAt;
    CallsFirst(ref, remote);
    AnsweredPath(ref, remote);
    PathDrives(AnsweredStates(ref), ANSWER, remote);
    DriveAppend(Created(ref, false, 0), START + UPLOAD + CALL, ANSWER, remote);
  }

  /** An accepted upload whose published bytes turn out to be others is given up: the job ends failed, nothing is retained or pushed. */
  lemma MismatchFails(ref: string, remote: Remote)
    ensures var d := Drive(Created(ref, false, 0), START + UPLOAD + CALL + ANSWER + MISMATCH, remote);
      d.Some? && d.value.row.status.Failed? && d.value.threads == map[] && d.value.pushes == [] && |d.value.calls| == 1
  {
    hide Drive, Created;
    Answers(ref, remote);
    MismatchPath(ref, remote);
    PathDrives(MismatchStates(ref), MISMATCH, remote);
    DriveAppend(Created(ref, false, 0), START + UPLOAD + CALL + ANSWER, MISMATCH, remote);
  }

  const TRANSPORT: seq<Action> := [
    Err(0, Raise), Err(0, Handle(true, false)), Err(0, Retain), Err(0, Schedule(Scheduled)), Server(ClaimRecheck), Server(Dequeue(RecheckItem, 1))]

  function Checked(ref: string, status: Status, error: ErrorText, recheck: Recheck): Row {
    Row(status, false, 35, error, recheck, false, false, ref, 0)
  }

  function TransportStates(ref: string): seq<JobState> {
    var row := RowAt(ref, WaitingDataset, 35);
    [Kept(ref, row, One(0, Process, Verify(R)), []),
     Kept(ref, row, One(0, Process, Raised), []),
     Kept(ref, row, One(0, Process, RetainWrite), []),
     Kept(ref, Checked(ref, WaitingDataset, RetainedCandidate, NoRecheck), One(0, Process, RetainSchedule), []),
     Kept(ref, Checked(ref, WaitingDataset, RetainedCandidate, Scheduled), map[], []),
     Kept(ref, Checked(ref, Queued, NoError, Checking), map[], []).(queue := multiset{RecheckItem}),
     Kept(ref, Checked(ref, Queued, NoError, Checking), One(1, RecheckRun, Begin), [])]
  }

  lemma TransportPath(ref: string, remote: Remote)
    ensures Path(TransportStates(ref), TRANSPORT, remote)
  {
    hide Steps, Kept, One, RowAt, Checked;
    var states := TransportStates(ref);
    Raised1(ref, remote);
    Transport2(ref, remote);
    Transport3(ref, remote);
    Transport4(ref, remote);
    Transport5(ref, remote);
    Transport6(ref, remote);
    forall i | 0 <= i < |TRANSPORT| ensures Steps(states[i], TRANSPORT[i], states[i + 1], remote) {
      if i < 3 { } else { }
    }
  }

  lemma Transport2(ref: string, remote: Remote)
    ensures var row := RowAt(ref, WaitingDataset, 35);
      Steps(Kept(ref, row, One(0, Process, Raised), []), Err(0, Handle(true, false)), Kept(ref, row, One(0, Process, RetainWrite), []), remote)
  {
    OneMoves(0, Process, Raised, RetainWrite);
  }

  lemma Transport3(ref: string, remote: Remote)
    ensures Steps(Kept(ref, RowAt(ref, WaitingDataset, 35), One(0, Process, RetainWrite), []), Err(0, Retain),
                  Kept(ref, Checked(ref, WaitingDataset, RetainedCandidate, NoRecheck), One(0, Process, RetainSchedule), []), remote)
  {
    OneMoves(0, Process, RetainWrite, RetainSchedule);
  }

  lemma Transport4(ref: string, remote: Remote)
    ensures Steps(Kept(ref, Checked(ref, WaitingDataset, RetainedCandidate, NoRecheck), One(0, Process, RetainSchedule), []), Err(0, Schedule(Scheduled)),
                  Kept(ref, Checked(ref, WaitingDataset, RetainedCandidate, Scheduled), map[], []), remote)
  {
    OneMoves(0, Process, RetainSchedule, Begin);
  }

  lemma Transport5(ref: string, remote: Remote)
    ensures Steps(Kept(ref, Checked(ref, WaitingDataset, RetainedCandidate, Scheduled), map[], []), Server(ClaimRecheck),
                  Kept(ref, Checked(ref, Queued, NoError, Checking), map[], []).(queue := multiset{RecheckItem}), remote)
  {
    OneItem(RecheckItem);
  }

  lemma Transport6(ref: string, remote: Remote)
    ensures Steps(Kept(ref, Checked(ref, Queued, NoError, Checking), map[], []).(queue := multiset{RecheckItem}), Server(Dequeue(RecheckItem, 1)),
                  Kept(ref, Checked(ref, Queued, NoError, Checking), One(1, RecheckRun, Begin), []), remote)
  {
    OneItem(RecheckItem);
    OneMoves(1, RecheckRun, Begin, Begin);
  }

  const RECHECKED: seq<Action> := [
    Run(1, Acquire(None)), Run(1, Prepare), Run(1, VerifyBytes), Run(1, RecordVerified), Run(1, PinVersion), Run(1, Submit), Run(1, PushCall(false)),
    Monitor(1, ReadRow(WaitingKernel, 60)), Monitor(1, WriteRow), Monitor(1, ReadRow(DownloadingOutput, 85)), Monitor(1, WriteRow), Monitor(1, Deliver)]

  function Record1(ref: string): PushRecord {
    PushRecord(ref, R, [], Some(Intent(1, 7, Accepted)))
  }

  function RecheckedStates(ref: string): seq<JobState> {
    var pushes := [Record1(ref)];
    [Kept(ref, Checked(ref, Queued, NoError, Checking), One(1, RecheckRun, Begin), []),
     Kept(ref, Checked(ref, Queued, NoError, Checking), One(1, RecheckRun, Prepared(Some(R))), []),
     Kept(ref, Checked(ref, WaitingDataset, NoError, Checking), One(1, RecheckRun, Verify(R)), []),
     Kept(ref, Checked(ref, WaitingDataset, NoError, Checking), One(1, RecheckRun, Record(R)), []),
     Kept(ref, RowAt(ref, WaitingDataset, 40), One(1, RecheckRun, Pin(R)), []),
     Kept(ref, RowAt(ref, WaitingDataset, 40), One(1, RecheckRun, Pc.Ready(R)), []),
     Kept(ref, RowAt(ref, PushingKernel, 45), One(1, RecheckRun, Push(R)), []),
     Kept(ref, RowAt(ref, PushingKernel, 45), One(1, RecheckRun, Finish(Complete, 0)), pushes),
     Kept(ref, RowAt(ref, PushingKernel, 45), One(1, RecheckRun, FinishWrite(Complete, 0, PushingKernel, WaitingKernel, 60, 1)), pushes),
     Kept(ref, RowAt(ref, WaitingKernel, 60), One(1, RecheckRun, Finish(Complete, 1)), pushes),
     Kept(ref, RowAt(ref, WaitingKernel, 60), One(1, RecheckRun, FinishWrite(Complete, 1, WaitingKernel, DownloadingOutput, 85, 2)), pushes),
     Kept(ref, RowAt(ref, DownloadingOutput, 85), One(1, RecheckRun, Finish(Complete, 2)), pushes),
     Kept(ref, RowAt(ref, Complete, 100), map[], pushes)]
  }

  lemma Rechecked1(ref: string, remote: Remote)
    ensures Steps(Kept(ref, Checked(ref, Queued, NoError, Checking), One(1, RecheckRun, Begin), []), Run(1, Acquire(None)),
                  Kept(ref, Checked(ref, Queued, NoError, Checking), One(1, RecheckRun, Prepared(Some(R))), []), remote)
  {
    hide RefSlug;
    assert Rewritten([], ref) == [];
    OneMoves(1, RecheckRun, Begin, Prepared(Some(R)));
  }

  lemma Rechecked2(ref: string, remote: Remote)
    ensures Steps(Kept(ref, Checked(ref, Queued, NoError, Checking), One(1, RecheckRun, Prepared(Some(R))), []), Run(1, Prepare),
                  Kept(ref, Checked(ref, WaitingDataset, NoError, Checking), One(1, RecheckRun, Verify(R)), []), remote)
  {
    OneMoves(1, RecheckRun, Prepared(Some(R)), Verify(R));
  }

  lemma Rechecked3(ref: string, remote: Remote)
    requires Serves(remote, ref, R)
    ensures Steps(Kept(ref, Checked(ref, WaitingDataset, NoError, Checking), One(1, RecheckRun, Verify(R)), []), Run(1, VerifyBytes),
                  Kept(ref, Checked(ref, WaitingDataset, NoError, Checking), One(1, RecheckRun, Record(R)), []), remote)
  {
    OneMoves(1, RecheckRun, Verify(R), Record(R));
  }

  lemma Rechecked4(ref: string, remote: Remote)
    ensures Steps(Kept(ref, Checked(ref, WaitingDataset, NoError, Checking), One(1, RecheckRun, Record(R)), []), Run(1, RecordVerified),
                  Kept(ref, RowAt(ref, WaitingDataset, 40), One(1, RecheckRun, Pin(R)), []), remote)
  {
    OneMoves(1, RecheckRun, Record(R), Pin(R));
  }

  lemma Rechecked5(ref: string, remote: Remote)
    ensures Steps(Kept(ref, RowAt(ref, WaitingDataset, 40), One(1, RecheckRun, Pin(R)), []), Run(1, PinVersion),
                  Kept(ref, RowAt(ref, WaitingDataset, 40), One(1, RecheckRun, Pc.Ready(R)), []), remote)
  {
    hide RefSlug, Versioned;
    assert Pinned([], ref, 1) == [];
    OneMoves(1, RecheckRun, Pin(R), Pc.Ready(R));
  }

  lemma Rechecked6(ref: string, remote: Remote)
    ensures Steps(Kept(ref, RowAt(ref, WaitingDataset, 40), One(1, RecheckRun, Pc.Ready(R)), []), Run(1, Submit),
                  Kept(ref, RowAt(ref, PushingKernel, 45), One(1, RecheckRun, Push(R)), []), remote)
  {
    OneMoves(1, RecheckRun, Pc.Ready(R), Push(R));
  }

  lemma Rechecked7(ref: string, remote: Remote)
    ensures Steps(Kept(ref, RowAt(ref, PushingKernel, 45), One(1, RecheckRun, Push(R)), []), Run(1, PushCall(false)),
                  Kept(ref, RowAt(ref, PushingKernel, 45), One(1, RecheckRun, Finish(Complete, 0)), [Record1(ref)]), remote)
  {
    assert [] + [Record1(ref)] == [Record1(ref)];
    OneMoves(1, RecheckRun, Push(R), Finish(Complete, 0));
  }

  lemma Rechecked8(ref: string, remote: Remote)
    ensures Steps(Kept(ref, RowAt(ref, PushingKernel, 45), One(1, RecheckRun, Finish(Complete, 0)), [Record1(ref)]), Monitor(1, ReadRow(WaitingKernel, 60)),
                  Kept(ref, RowAt(ref, PushingKernel, 45), One(1, RecheckRun, FinishWrite(Complete, 0, PushingKernel, WaitingKernel, 60, 1)), [Record1(ref)]), remote)
  {
    OneMoves(1, RecheckRun, Finish(Complete, 0), FinishWrite(Complete, 0, PushingKernel, WaitingKernel, 60, 1));
  }

  lemma Rechecked9(ref: string, remote: Remote)
    ensures Steps(Kept(ref, RowAt(ref, PushingKernel, 45), One(1, RecheckRun, FinishWrite(Complete, 0, PushingKernel, WaitingKernel, 60, 1)), [Record1(ref)]), Monitor(1, WriteRow),
                  Kept(ref, RowAt(ref, WaitingKernel, 60), One(1, RecheckRun, Finish(Complete, 1)), [Record1(ref)]), remote)
  {
    OneMoves(1, RecheckRun, FinishWrite(Complete, 0, PushingKernel, WaitingKernel, 60, 1), Finish(Complete, 1));
  }

  lemma Rechecked10(ref: string, remote: Remote)
    ensures Steps(Kept(ref, RowAt(ref, WaitingKernel, 60), One(1, RecheckRun, Finish(Complete, 1)), [Record1(ref)]), Monitor(1, ReadRow(DownloadingOutput, 85)),
                  Kept(ref, RowAt(ref, WaitingKernel, 60), One(1, RecheckRun, FinishWrite(Complete, 1, WaitingKernel, DownloadingOutput, 85, 2)), [Record1(ref)]), remote)
  {
    OneMoves(1, RecheckRun, Finish(Complete, 1), FinishWrite(Complete, 1, WaitingKernel, DownloadingOutput, 85, 2));
  }

  lemma Rechecked11(ref: string, remote: Remote)
    ensures Steps(Kept(ref, RowAt(ref, WaitingKernel, 60), One(1, RecheckRun, FinishWrite(Complete, 1, WaitingKernel, DownloadingOutput, 85, 2)), [Record1(ref)]), Monitor(1, WriteRow),
                  Kept(ref, RowAt(ref, DownloadingOutput, 85), One(1, RecheckRun, Finish(Complete, 2)), [Record1(ref)]), remote)
  {
    OneMoves(1, RecheckRun, FinishWrite(Complete, 1, WaitingKernel, DownloadingOutput, 85, 2), Finish(Complete, 2));
  }

  lemma Rechecked12(ref: string, remote: Remote)
    ensures Steps(Kept(ref, RowAt(ref, DownloadingOutput, 85), One(1, RecheckRun, Finish(Complete, 2)), [Record1(ref)]), Monitor(1, Deliver),
                  Kept(ref, RowAt(ref, Complete, 100), map[], [Record1(ref)]), remote)
  {
    OneMoves(1, RecheckRun, Finish(Complete, 2), Begin);
  }

  lemma RecheckedPath(ref: string, remote: Remote)
    requires Serves(remote, ref, R)
    ensures Path(RecheckedStates(ref), RECHECKED, remote)
  {
    hide Steps, Kept, One, RowAt, Checked, Record1, Serves;
    var states := RecheckedStates(ref);
    Rechecked1(ref, remote);
    Rechecked2(ref, remote);
    Rechecked3(ref, remote);
    Rechecked4(ref, remote);
    Rechecked5(ref, remote);
    Rechecked6(ref, remote);
    Rechecked7(ref, remote);
    Rechecked8(ref, remote);
    Rechecked9(ref, remote);
    Rechecked10(ref, remote);
    Rechecked11(ref, remote);
    Rechecked12(ref, remote);
    forall i | 0 <= i < |RECHECKED| ensures Steps(states[i], RECHECKED[i], states[i + 1], remote) {
      if i < 3 { } else if i < 6 { } else if i < 9 { } else { }
    }
  }

  /** An accepted upload whose verification fails in transport keeps its candidate: the recheck verifies and pushes it, and the one
      upload stays the only one. */
  lemma TransportFailureCompletes(ref: string, remote: Remote)
    requires Serves(remote, ref, R)
    ensures var d := Drive(Created(ref, false, 0), START + UPLOAD + CALL + ANSWER + TRANSPORT + RECHECKED, remote);
      && d.Some? && d.value.row.status.Complete? && d.value.threads == map[]
      && |d.value.calls| == 1 && |d.value.pushes| == 1 && d.value.pushes[0].receipt == d.value.calls[0].receipt
  {
    hide Drive, Created, Serves, Rewritten;
    Answers(ref, remote);
    TransportPath(ref, remote);
    PathDrives(TransportStates(ref), TRANSPORT, remote);
    DriveAppend(Created(ref, false, 0), START + UPLOAD + CALL + ANSWER, TRANSPORT, remote);
    RecheckedPath(ref, remote);
    PathDrives(RecheckedStates(ref), RECHECKED, remote);
    DriveAppend(Created(ref, false, 0), START + UPLOAD + CALL + ANSWER + TRANSPORT, RECHECKED, remote);
  }
}
