/** The invariants of JobProtocol and their preservation by every action. */
module JobInvariants {
  import opened Options
  import opened Database
  import opened KaggleRefs
  import opened JobProtocol

  predicate Early(s: Status) {
    s.Receiving? || s.Assembling?
  }

  /** Statuses a job can no longer return to once its kernel push began. */
  predicate PrePush(s: Status) {
    Early(s) || s.Queued? || s.UploadingDataset? || s.WaitingDataset?
  }

  // ---- at most one worker ----

  predicate Exclusive(s: JobState) {
    && (forall a, b :: a in s.threads && b in s.threads ==> a == b)
    && (s.active <==> s.threads != map[])
    && (s.recovering ==> s.threads == map[] && s.queue == multiset{} && !s.assembly && !s.row.status.Receiving? && !Terminal(s.row.status))
  }

  // ---- nothing has happened before the archives are assembled and the account is bound ----

  predicate Untouched(s: JobState) {
    && s.threads == map[] && s.queue == multiset{} && s.children == map[] && s.view == map[] && s.disk == map[]
    && s.calls == [] && s.pushes == [] && !s.entered
  }

  predicate Fresh(s: JobState) {
    && (s.assembly || Early(s.row.status) || AwaitingAssignment(s.row) ==> Untouched(s))
    && (s.assembly ==> (s.row.status.Assembling? || s.row.status.WaitingKernel?) && !s.row.cancelRequested)
    && (AwaitingAssignment(s.row) ==> Terminal(s.row.status) || Early(s.row.status) || s.row.status.Queued?)
    && (!s.row.dynamic ==> !s.row.pending)
  }

  // ---- the row ----

  predicate RowOk(row: Row, entered: bool) {
    && (Terminal(row.status) ==> row.reserved == 0)
    && (row.error == RetainedCandidate ==> (PrePush(row.status) ==> row.status.WaitingDataset?))
    && (row.cancelRequested ==> !row.status.PushingKernel?
                                && (PrePush(row.status) ==> row.status.WaitingDataset? && row.error == RetainedCandidate))
    && (entered ==> !PrePush(row.status) && (!Terminal(row.status) ==> row.progress >= 45))
    && (row.status.PushingKernel? ==> entered)
  }

  // ---- intent files and the remote call ----

  /** Same candidate, and the outcome only ever becomes known. */
  predicate Advances(older: Intent, newer: Intent) {
    Binding(older) == Binding(newer) && (older.state == Unknown || older.state == newer.state)
  }

  predicate OnlyRef(m: Intents, ref: string) {
    forall r :: r in m ==> r == ref && m[r].version > 0
  }

  predicate Files(ref: string, view: Intents, disk: Intents, calls: seq<Call>) {
    && OnlyRef(view, ref) && OnlyRef(disk, ref)
    && (ref in disk ==> ref in view && Advances(disk[ref], view[ref]))
    && |calls| <= 1
    && (forall i :: 0 <= i < |calls| ==> calls[i].datasetRef == ref && ref in disk && Binding(disk[ref]) == calls[i].receipt)
  }

  predicate ChildOk(s: JobState, c: nat)
    requires c in s.children
  {
    var ref, r := s.row.datasetRef, s.children[c].receipt;
    match s.children[c].stage
    case Checked => ref !in s.view && s.calls == [] && r.version > 0
    case Replaced => s.view == map[ref := Intent(r.version, r.digest, Unknown)] && s.calls == []
    case Durable => s.view == s.disk == map[ref := Intent(r.version, r.digest, Unknown)] && s.calls == []
    case Called => s.view == s.disk == map[ref := Intent(r.version, r.digest, Unknown)] && s.calls == [Call(ref, r)]
    case Settled(ok) =>
      && s.view == map[ref := Intent(r.version, r.digest, if ok then Accepted else Rejected)] && s.calls == [Call(ref, r)]
    case Done(ok) => s.view == map[ref := Intent(r.version, r.digest, if ok then Accepted else Rejected)] && s.calls == [Call(ref, r)]
  }

  /** The child is still served by the thread that started it, or it lost its parent where no run can follow. */
  predicate Attended(s: JobState, c: nat) {
    || (exists k :: k in s.threads && s.threads[k].pc == AwaitUpload(c))
    || ((forall k :: k in s.threads ==> s.threads[k].kind == Resume)
        && (PrePush(s.row.status) ==> s.row.status.UploadingDataset?)
        && (s.row.status == UploadingDataset ==> s.recovering))
  }

  predicate Children(s: JobState) {
    && (forall c, d :: c in s.children && d in s.children ==> c == d)
    && (forall c :: c in s.children ==> ChildOk(s, c) && (s.children[c].stage.Checked? ==> Attended(s, c)))
  }

  // ---- worker threads ----

  predicate Matching(ref: string, view: Intents, r: Receipt) {
    ref in view && Binding(view[ref]) == r
  }

  predicate PinnedTo(ref: string, sources: seq<string>, r: Receipt) {
    RefSlug(ref) != "" ==> AllPinned(sources, ref, r.version)
  }

  /** What a run knows about the receipt it carries.  Without an intent there is no upload child either. */
  predicate ReceiptOk(ref: string, view: Intents, children: map<nat, Child>, sources: seq<string>, pc: Pc, remote: Remote) {
    var cached := ref !in view && children == map[];
    match pc
    case CacheVerify(r) => cached
    case CachePin(r) => cached && Serves(remote, ref, r)
    case CacheRecord(r) => cached && Serves(remote, ref, r) && PinnedTo(ref, sources, r)
    case Prepared(saved) => saved.Some? ==> Matching(ref, view, saved.value)
    case AwaitUpload(c) => c in children
    case Uploaded(r) => Matching(ref, view, r)
    case Verify(r) => Matching(ref, view, r)
    case Record(r) => Matching(ref, view, r) && Serves(remote, ref, r)
    case Pin(r) => Matching(ref, view, r) && Serves(remote, ref, r)
    case Ready(r) => (cached || Matching(ref, view, r)) && Serves(remote, ref, r) && PinnedTo(ref, sources, r)
    case Push(r) => (cached || Matching(ref, view, r)) && Serves(remote, ref, r) && PinnedTo(ref, sources, r)
    case _ => true
  }

  predicate PlaceOk(row: Row, entered: bool, pushed: bool, t: Thread) {
    && (t.kind == Resume ==> (t.pc.Finish? || t.pc.FinishWrite? || t.pc.FailWrite?) && !PrePush(row.status))
    && (t.kind != Resume && !t.pc.RetainSchedule? && !t.pc.FailWrite? && !t.pc.CancelWrite? ==> row.error != RetainedCandidate)
    && (BeforeSubmission(t.pc) ==> !entered)
    && (t.pc.Push? ==> entered && !pushed)
    && (t.pc.Finish? || t.pc.FinishWrite? ==> !PrePush(row.status) && Terminal(t.pc.final))
    && (t.pc.FinishWrite? ==> t.pc.progress >= 60 && !PrePush(t.pc.seen) && !Terminal(t.pc.seen)
                              && (t.pc.next.WaitingKernel? || t.pc.next.DownloadingOutput? || t.pc.next.CancelRequested?))
    && (t.pc.Uploading? || t.pc.AwaitUpload? ==> row.status.UploadingDataset? || row.status.CancelRequested? || row.status.WaitingKernel?)
    && (t.pc.RetainWrite? ==> row.status.UploadingDataset? || row.status.WaitingDataset? || row.status.CancelRequested? || row.status.WaitingKernel?)
    && (t.pc.RetainWrite? || t.pc.RetainSchedule? ==> !entered)
  }

  predicate ThreadOk(s: JobState, t: Thread, remote: Remote) {
    && PlaceOk(s.row, s.entered, s.pushes != [], t)
    && ReceiptOk(s.row.datasetRef, s.view, s.children, s.sources, t.pc, remote)
  }

  predicate Threads(s: JobState, remote: Remote) {
    && (s.threads != map[] ==> !s.assembly && !Early(s.row.status) && !AwaitingAssignment(s.row))
    && (forall k :: k in s.threads ==> ThreadOk(s, s.threads[k], remote))
    && (forall f :: ResumeItem(f) in s.queue ==> Terminal(f))
  }

  // ---- the push record ----

  predicate PushOk(ref: string, p: PushRecord, remote: Remote) {
    && p.datasetRef == ref
    && Serves(remote, p.datasetRef, p.receipt)
    && (RefSlug(p.datasetRef) != "" ==> AllPinned(p.sources, p.datasetRef, p.receipt.version))
    && (p.intent.Some? ==> Binding(p.intent.value) == p.receipt)
  }

  predicate History(ref: string, pushes: seq<PushRecord>, entered: bool, remote: Remote) {
    && |pushes| <= 1
    && (pushes != [] ==> entered)
    && (forall i :: 0 <= i < |pushes| ==> PushOk(ref, pushes[i], remote))
  }

  predicate Inv(s: JobState, remote: Remote) {
    && Exclusive(s) && Fresh(s) && RowOk(s.row, s.entered) && Files(s.row.datasetRef, s.view, s.disk, s.calls)
    && Children(s) && Threads(s, remote) && History(s.row.datasetRef, s.pushes, s.entered, remote)
  }

  lemma CreatedInv(datasetRef: string, dynamic: bool, reserved: nat, remote: Remote)
    ensures Inv(Created(datasetRef, dynamic, reserved), remote)
  {
  }

  lemma RemoteGrowth(s: JobState, remote: Remote, later: Remote)
    requires Inv(s, remote) && remote.Keys <= later.Keys && forall v :: v in remote ==> later[v] == remote[v]
    ensures Inv(s, later)
  {
  }

  // ---- what each kind of step has to show ----

  /** Thread k moves to another program point and may write the row; nothing else changes. */
  lemma ThreadMove(s: JobState, k: nat, row: Row, pc: Pc, remote: Remote)
    requires Inv(s, remote) && k in s.threads
    requires row.datasetRef == s.row.datasetRef && row.dynamic == s.row.dynamic && row.pending == s.row.pending
    requires !Early(row.status) && RowOk(row, s.entered)
    requires PlaceOk(row, s.entered, s.pushes != [], Thread(s.threads[k].kind, pc))
    requires ReceiptOk(s.row.datasetRef, s.view, s.children, s.sources, pc, remote)
    requires !s.threads[k].pc.AwaitUpload?
    ensures Inv(At(s.(row := row), k, pc), remote)
  {
    hide RefSlug, AllPinned, SameSlug, RowOk, Files, History;
    var s' := At(s.(row := row), k, pc);
    assert s'.threads == map[k := s.threads[k].(pc := pc)];
    forall c | c in s'.children ensures ChildOk(s', c) && (s'.children[c].stage.Checked? ==> Attended(s', c)) {
      assert ChildOk(s, c) && (s.children[c].stage.Checked? ==> Attended(s, c));
    }
  }

  /** Thread k ends, possibly after writing the row. */
  lemma ThreadExit(s: JobState, k: nat, row: Row, remote: Remote)
    requires Inv(s, remote) && k in s.threads
    requires row.datasetRef == s.row.datasetRef && row.dynamic == s.row.dynamic && row.pending == s.row.pending
    requires !Early(row.status) && RowOk(row, s.entered)
    requires !s.threads[k].pc.AwaitUpload?
    requires s.threads[k].kind == Resume ==> !PrePush(row.status)
    ensures Inv(Exit(s.(row := row), k), remote)
  {
    hide RefSlug, AllPinned, SameSlug, RowOk, Files, History;
    var s' := Exit(s.(row := row), k);
    assert s'.threads == map[];
    forall c | c in s'.children ensures ChildOk(s', c) && (s'.children[c].stage.Checked? ==> Attended(s', c)) {
      assert ChildOk(s, c) && (s.children[c].stage.Checked? ==> Attended(s, c));
    }
  }

  lemma CrashInv(s: JobState, kind: CrashKind, remote: Remote)
    requires Inv(s, remote)
    ensures Inv(CrashStep(s, kind), remote)
  {
    hide RefSlug, AllPinned, SameSlug, Files, RowOk, ChildOk, History, Fresh;
    var s' := CrashStep(s, kind);
    assert Fresh(s') by { CrashFresh(s, kind); }
    assert Files(s'.row.datasetRef, s'.view, s'.disk, s'.calls) by { CrashFiles(s.row.datasetRef, s.view, s.disk, s.calls); }
    forall c | c in s'.children ensures ChildOk(s', c) && (s'.children[c].stage.Checked? ==> Attended(s', c)) {
      assert ChildOk(s, c) && (s.children[c].stage.Checked? ==> Attended(s, c));
      OrphanOk(s, s', c);
    }
  }

  lemma CrashFresh(s: JobState, kind: CrashKind)
    requires Fresh(s)
    ensures Fresh(CrashStep(s, kind))
  {
  }

  /** A power failure goes back to what is on disk. */
  lemma CrashFiles(ref: string, view: Intents, disk: Intents, calls: seq<Call>)
    requires Files(ref, view, disk, calls)
    ensures Files(ref, disk, disk, calls)
  {
    forall i | 0 <= i < |calls| ensures calls[i].datasetRef == ref && ref in disk && Binding(disk[ref]) == calls[i].receipt {
      assert calls[i].datasetRef == ref;
    }
  }

  /** A child that outlives its service finds the files as they were. */
  lemma OrphanOk(s: JobState, s': JobState, c: nat)
    requires c in s.children && c in s'.children && s'.children[c] == s.children[c] && ChildOk(s, c)
    requires s'.view == s.view && s'.disk == s.disk && s'.calls == s.calls && s'.row.datasetRef == s.row.datasetRef
    ensures ChildOk(s', c)
  {
  }

  lemma MonitorInv(s: JobState, k: nat, a: MonitorAction, remote: Remote)
    requires Inv(s, remote) && k in s.threads && MonitorEnabled(s.threads[k], a)
    ensures Inv(MonitorStep(s, k, a), remote)
  {
    hide Inv, RowOk, PlaceOk, ReceiptOk, UpdateJob, Finalize, ReadRowStep, WriteRowStep, LostRow, Exit, At, Max;
    ThreadFacts(s, k, remote);
    var t, row := s.threads[k], s.row;
    match a {
      case ReadRow(target, floor) => ReadRowInv(s, k, target, floor, remote);
      case WriteRow => WriteRowInv(s, k, remote);
      case RecordOutput => RecordInv(s, k, remote);
      case Deliver =>
        FinishFact(row, s.entered, s.pushes != [], t);
        FinalizedRow(row, s.entered, t.pc.final, Update(progress := Some(100), error := Some(NoError)));
        ThreadExit(s, k, Finalize(row, t.pc.final, Update(progress := Some(100), error := Some(NoError))), remote);
      case LoseMonitor =>
        LostRowOk(row, s.entered, s.pushes != [], t);
        ThreadExit(s, k, LostRow(row), remote);
    }
  }

  lemma FinishFact(row: Row, entered: bool, pushed: bool, t: Thread)
    requires PlaceOk(row, entered, pushed, t) && (t.pc.Finish? || t.pc.FinishWrite?)
    ensures Terminal(t.pc.final) && !PrePush(row.status)
  {
  }

  lemma LostRowOk(row: Row, entered: bool, pushed: bool, t: Thread)
    requires RowOk(row, entered) && PlaceOk(row, entered, pushed, t) && t.pc.Finish?
    ensures var row' := LostRow(row); RowOk(row', entered) && SameJob(row, row') && !Early(row'.status) && !PrePush(row'.status)
  {
  }

  lemma RecordInv(s: JobState, k: nat, remote: Remote)
    requires Inv(s, remote) && k in s.threads && s.threads[k].pc.Finish?
    ensures Inv(s.(row := UpdateJob(s.row, Update(progress := Some(Max(s.row.progress, 82))))), remote)
  {
    hide Inv, RowOk, PlaceOk, ReceiptOk, UpdateJob;
    ThreadFacts(s, k, remote);
    var row' := UpdateJob(s.row, Update(progress := Some(Max(s.row.progress, 82))));
    RecordedRow(s.row, s.entered, s.pushes != [], s.threads[k]);
    assert s.threads[k := s.threads[k].(pc := s.threads[k].pc)] == s.threads;
    ThreadMove(s, k, row', s.threads[k].pc, remote);
  }

  lemma RecordedRow(row: Row, entered: bool, pushed: bool, t: Thread)
    requires RowOk(row, entered) && PlaceOk(row, entered, pushed, t) && t.pc.Finish?
    ensures var row' := UpdateJob(row, Update(progress := Some(Max(row.progress, 82))));
      RowOk(row', entered) && SameJob(row, row') && !Early(row'.status) && PlaceOk(row', entered, pushed, t)
  {
  }

  lemma ReadRowInv(s: JobState, k: nat, target: Status, floor: int, remote: Remote)
    requires Inv(s, remote) && k in s.threads && MonitorEnabled(s.threads[k], ReadRow(target, floor))
    ensures Inv(ReadRowStep(s, k, target, floor), remote)
  {
    hide Inv, RowOk, PlaceOk, ReceiptOk, Max, CancelSeen, MonitorEnabled;
    assert s.threads[k].pc.Finish? by { ReadsAtFinish(s.threads[k], target, floor); }
    ThreadFacts(s, k, remote);
    ReadPlace(s.row, s.entered, s.pushes != [], s.threads[k], target, floor);
    assert s.(row := s.row) == s;
    var pc := s.threads[k].pc;
    var goal := if target == DownloadingOutput then 2 else 1;
    if Terminal(s.row.status) {
      PlainReceipt(s, Finish(pc.final, goal), remote);
      ThreadMove(s, k, s.row, Finish(pc.final, goal), remote);
    } else {
      var next := FinishWrite(pc.final, pc.phase, s.row.status, if CancelSeen(s.row) then CancelRequested else target, Max(s.row.progress, floor), goal);
      PlainReceipt(s, next, remote);
      ThreadMove(s, k, s.row, next, remote);
    }
  }

  lemma ReadsAtFinish(t: Thread, target: Status, floor: int)
    requires MonitorEnabled(t, ReadRow(target, floor))
    ensures t.pc.Finish?
  {
  }

  lemma PlainReceipt(s: JobState, pc: Pc, remote: Remote)
    requires pc.Finish? || pc.FinishWrite?
    ensures ReceiptOk(s.row.datasetRef, s.view, s.children, s.sources, pc, remote)
  {
  }

  lemma ReadPlace(row: Row, entered: bool, pushed: bool, t: Thread, target: Status, floor: int)
    requires RowOk(row, entered) && PlaceOk(row, entered, pushed, t) && MonitorEnabled(t, ReadRow(target, floor))
    ensures var pc, goal := t.pc, if target == DownloadingOutput then 2 else 1;
      && PlaceOk(row, entered, pushed, Thread(t.kind, Finish(pc.final, goal)))
      && (!Terminal(row.status) ==>
            PlaceOk(row, entered, pushed, Thread(t.kind, FinishWrite(pc.final, pc.phase, row.status,
                                                  if CancelSeen(row) then CancelRequested else target, Max(row.progress, floor), goal))))
  {
  }

  lemma WriteRowInv(s: JobState, k: nat, remote: Remote)
    requires Inv(s, remote) && k in s.threads && s.threads[k].pc.FinishWrite?
    ensures Inv(WriteRowStep(s, k), remote)
  {
    hide Inv, RowOk, PlaceOk, ReceiptOk, MonitoredRow;
    ThreadFacts(s, k, remote);
    var pc := s.threads[k].pc;
    WrittenRow(s.row, s.entered, s.pushes != [], s.threads[k]);
    if s.row.status == pc.seen {
      PlainReceipt(s, Finish(pc.final, pc.goal), remote);
      ThreadMove(s, k, MonitoredRow(s.row, pc), Finish(pc.final, pc.goal), remote);
    } else {
      assert s.(row := s.row) == s;
      PlainReceipt(s, Finish(pc.final, pc.phase), remote);
      ThreadMove(s, k, s.row, Finish(pc.final, pc.phase), remote);
    }
  }

  lemma WrittenRow(row: Row, entered: bool, pushed: bool, t: Thread)
    requires RowOk(row, entered) && PlaceOk(row, entered, pushed, t) && t.pc.FinishWrite?
    ensures PlaceOk(row, entered, pushed, Thread(t.kind, Finish(t.pc.final, t.pc.phase)))
    ensures row.status == t.pc.seen ==>
              var row' := MonitoredRow(row, t.pc);
              RowOk(row', entered) && SameJob(row, row') && !Early(row'.status) && PlaceOk(row', entered, pushed, Thread(t.kind, Finish(t.pc.final, t.pc.goal)))
  {
  }

  lemma ThreadFacts(s: JobState, k: nat, remote: Remote)
    requires Inv(s, remote) && k in s.threads
    ensures ThreadOk(s, s.threads[k], remote) && RowOk(s.row, s.entered)
    ensures s.threads == map[k := s.threads[k]] && s.active && !s.recovering && !s.assembly
    ensures !Early(s.row.status) && !AwaitingAssignment(s.row)
    ensures BeforeSubmission(s.threads[k].pc) ==> s.pushes == [] && !s.entered && s.threads[k].kind != Resume
  {
    hide RefSlug, AllPinned, SameSlug, Files, Children, Fresh, RowOk, ReceiptOk, PlaceOk;
    assert ThreadOk(s, s.threads[k], remote);
    if BeforeSubmission(s.threads[k].pc) {
      BeforeSubmissionFact(s, s.threads[k]);
    }
  }

  lemma BeforeSubmissionFact(s: JobState, t: Thread)
    requires PlaceOk(s.row, s.entered, s.pushes != [], t) && BeforeSubmission(t.pc)
    ensures !s.entered && t.kind != Resume
  {
  }

  lemma ErrorInv(s: JobState, k: nat, a: ErrorAction, remote: Remote)
    requires Inv(s, remote) && k in s.threads && ErrorEnabled(s, k, a)
    ensures Inv(ErrorStep(s, k, a), remote)
  {
    hide Inv, RowOk, PlaceOk, ReceiptOk, UpdateJob, Finalize, UpdateIfStatus, Get, Exit, At;
    ThreadFacts(s, k, remote);
    var t, row := s.threads[k], s.row;
    match a {
      case Interrupt =>
        if t.pc.AwaitUpload? {
          AbandonedExit(s, k, remote);
        } else {
          LeavingRow(row, s.entered, s.pushes != [], t, row);
          ThreadExit(s, k, row, remote);
        }
      case Schedule(r) =>
        var row' := UpdateIfStatus(row, {WaitingDataset}, true, Update(recheck := Some(r)));
        PlannedRow(row, s.entered, s.pushes != [], t, r);
        ThreadExit(s, k, row', remote);
      case Fail =>
        var row' := Finalize(row, Failed, Update(progress := Some(0), error := Some(OtherError)));
        FinalizedRow(row, s.entered, Failed, Update(progress := Some(0), error := Some(OtherError)));
        ThreadExit(s, k, row', remote);
      case Cancel =>
        var row' := Finalize(row, Canceled, Update(error := Some(OtherError)));
        FinalizedRow(row, s.entered, Canceled, Update(error := Some(OtherError)));
        ThreadExit(s, k, row', remote);
      case Retain =>
        var row' := UpdateJob(row, Update(status := Some(WaitingDataset), error := Some(RetainedCandidate)));
        RetainedRow(row, s.entered, s.pushes != [], t);
        HandlerReceipt(s, RetainSchedule, remote);
        ThreadMove(s, k, row', RetainSchedule, remote);
      case Raise => HandlerMove(s, k, if t.kind == Resume || InHandler(t.pc) then FailWrite else Raised, remote);
      case NoticeCancel => HandlerMove(s, k, CancelWrite, remote);
      case Handle(readable, integrity) =>
        var i := if readable then Get(s.view, row.datasetRef) else None;
        HandlerMove(s, k, if (row.status == UploadingDataset || row.status == WaitingDataset) && i.Some?
                             && (i.value.state == Unknown || (i.value.state == Accepted && !integrity)) then RetainWrite else FailWrite, remote);
    }
  }

  /** A thread enters or moves inside its handler without writing the row. */
  lemma HandlerMove(s: JobState, k: nat, pc: Pc, remote: Remote)
    requires Inv(s, remote) && k in s.threads && !s.threads[k].pc.AwaitUpload?
    requires HandlerStep(s.row, s.threads[k], pc)
    ensures Inv(At(s, k, pc), remote)
  {
    hide Inv, RowOk, PlaceOk, ReceiptOk, UpdateJob;
    ThreadFacts(s, k, remote);
    HandlerPlace(s.row, s.entered, s.pushes != [], s.threads[k], pc);
    HandlerReceipt(s, pc, remote);
    assert s.(row := s.row) == s;
    ThreadMove(s, k, s.row, pc, remote);
  }

  predicate HandlerStep(row: Row, t: Thread, pc: Pc) {
    || pc.FailWrite?
    || (pc.CancelWrite? && BeforeSubmission(t.pc))
    || (pc.Raised? && t.kind != Resume && !InHandler(t.pc))
    || (pc.RetainWrite? && t.pc.Raised? && (row.status.UploadingDataset? || row.status.WaitingDataset?))
  }

  lemma HandlerPlace(row: Row, entered: bool, pushed: bool, t: Thread, pc: Pc)
    requires RowOk(row, entered) && PlaceOk(row, entered, pushed, t) && HandlerStep(row, t, pc)
    ensures PlaceOk(row, entered, pushed, Thread(t.kind, pc))
  {
  }

  lemma HandlerReceipt(s: JobState, pc: Pc, remote: Remote)
    requires InHandler(pc)
    ensures ReceiptOk(s.row.datasetRef, s.view, s.children, s.sources, pc, remote)
  {
  }

  lemma LeavingRow(row: Row, entered: bool, pushed: bool, t: Thread, row': Row)
    requires PlaceOk(row, entered, pushed, t) && row' == row
    ensures t.kind == Resume ==> !PrePush(row'.status)
  {
  }

  lemma PlannedRow(row: Row, entered: bool, pushed: bool, t: Thread, r: Recheck)
    requires RowOk(row, entered) && PlaceOk(row, entered, pushed, t) && !Early(row.status)
    ensures var row' := UpdateIfStatus(row, {WaitingDataset}, true, Update(recheck := Some(r)));
      RowOk(row', entered) && SameJob(row, row') && !Early(row'.status) && (t.kind == Resume ==> !PrePush(row'.status))
  {
  }

  lemma FinalizedRow(row: Row, entered: bool, outcome: Status, u: Update)
    requires RowOk(row, entered) && Terminal(outcome) && u.pending.None? && u.datasetRef.None? && u.cancelRequested.None?
    requires u.error != Some(RetainedCandidate)
    ensures var row' := Finalize(row, outcome, u);
      RowOk(row', entered) && SameJob(row, row') && !Early(row'.status) && !PrePush(row'.status)
  {
  }

  lemma RetainedRow(row: Row, entered: bool, pushed: bool, t: Thread)
    requires RowOk(row, entered) && PlaceOk(row, entered, pushed, t) && t.pc.RetainWrite?
    ensures var row' := UpdateJob(row, Update(status := Some(WaitingDataset), error := Some(RetainedCandidate)));
      RowOk(row', entered) && SameJob(row, row') && !Early(row'.status) && PlaceOk(row', entered, pushed, Thread(t.kind, RetainSchedule))
  {
  }

  /** The parent kills its upload child: with it goes the only writer of the intent. */
  lemma AbandonChild(s: JobState, k: nat, remote: Remote)
    requires Inv(s, remote) && k in s.threads && s.threads[k].pc.AwaitUpload?
    ensures Inv(At(s.(children := s.children - {s.threads[k].pc.child}), k, Raised), remote)
  {
    hide RefSlug, AllPinned, SameSlug, Files, History, RowOk, ChildOk;
    var c := s.threads[k].pc.child;
    ThreadFacts(s, k, remote);
    assert s.children - {c} == map[];
    assert At(s, k, Raised).threads == map[k := s.threads[k].(pc := Raised)];
  }

  lemma AbandonedExit(s: JobState, k: nat, remote: Remote)
    requires Inv(s, remote) && k in s.threads && s.threads[k].pc.AwaitUpload?
    ensures Inv(Exit(s.(children := s.children - {s.threads[k].pc.child}), k), remote)
  {
    hide RefSlug, AllPinned, SameSlug, Files, History, RowOk, ChildOk, ReceiptOk;
    var c := s.threads[k].pc.child;
    ThreadFacts(s, k, remote);
    assert c in s.children by { AwaitedChild(s, k, remote); }
    assert s.children - {c} == map[];
    assert s.threads - {k} == map[];
  }

  lemma AwaitedChild(s: JobState, k: nat, remote: Remote)
    requires Inv(s, remote) && k in s.threads && s.threads[k].pc.AwaitUpload?
    ensures s.threads[k].pc.child in s.children
  {
    hide RefSlug, AllPinned, SameSlug, Files, History, RowOk, Fresh, Children, Exclusive;
    assert ThreadOk(s, s.threads[k], remote);
  }

  lemma RunInv(s: JobState, k: nat, a: RunAction, remote: Remote)
    requires Inv(s, remote) && k in s.threads && RunEnabled(s, k, a, remote)
    ensures Inv(RunStep(s, k, a, remote), remote)
  {
    hide Inv, RunEnabled, CacheStep, UploadStep, SubmitStep;
    if CachePath(a) {
      CacheInv(s, k, a, remote);
    } else if UploadPath(a) {
      UploadInv(s, k, a, remote);
    } else {
      SubmissionInv(s, k, a, remote);
    }
  }

  lemma CacheInv(s: JobState, k: nat, a: RunAction, remote: Remote)
    requires Inv(s, remote) && k in s.threads && RunEnabled(s, k, a, remote) && CachePath(a)
    ensures Inv(CacheStep(s, k, a, remote), remote)
  {
    hide RefSlug, AllPinned, SameSlug, Files, Children, History, Fresh, Exclusive, Threads, Serves, Transition;
    var s' := CacheStep(s, k, a, remote);
    var pc := s.threads[k].pc;
    ThreadFacts(s, k, remote);
    match a {
      case Acquire(_) => AcquireInv(s, k, a, remote);
      case VerifyCached => ThreadMove(s, k, s.row, CachePin(pc.receipt), remote);
      case PinCached => PinInv(s, k, pc.receipt, CacheRecord(pc.receipt), remote);
      case RecordCached => ThreadMove(s, k, s'.row, Ready(pc.receipt), remote);
    }
  }

  lemma UploadInv(s: JobState, k: nat, a: RunAction, remote: Remote)
    requires Inv(s, remote) && k in s.threads && RunEnabled(s, k, a, remote) && UploadPath(a)
    ensures Inv(UploadStep(s, k, a, remote), remote)
  {
    hide RefSlug, AllPinned, SameSlug, Files, Children, History, Fresh, Exclusive, Threads, Serves, Transition;
    var s' := UploadStep(s, k, a, remote);
    var pc := s.threads[k].pc;
    ThreadFacts(s, k, remote);
    match a {
      case Prepare =>
        if pc.saved.Some? { TransitionInv(s, k, {Queued}, WaitingDataset, 35, Verify(pc.saved.value), remote); }
        else { TransitionInv(s, k, {Queued, UploadingDataset, WaitingDataset}, UploadingDataset, 20, Uploading, remote); }
      case ReuseIntent => ThreadMove(s, k, s.row, s'.threads[k].pc, remote);
      case StartUpload(c, v) => StartUploadInv(s, k, c, v, remote);
      case UploadReturned => UploadReturnedInv(s, k, remote);
      case GiveUpUpload => AbandonChild(s, k, remote);
      case AfterUpload => TransitionInv(s, k, {UploadingDataset}, WaitingDataset, 35, Verify(pc.receipt), remote);
    }
  }

  lemma SubmissionInv(s: JobState, k: nat, a: RunAction, remote: Remote)
    requires Inv(s, remote) && k in s.threads && RunEnabled(s, k, a, remote) && SubmitPath(a)
    ensures Inv(SubmitStep(s, k, a, remote), remote)
  {
    hide RefSlug, AllPinned, SameSlug, Files, Children, History, Fresh, Exclusive, Threads, Serves, Transition, PinStep;
    var s' := SubmitStep(s, k, a, remote);
    var pc := s.threads[k].pc;
    ThreadFacts(s, k, remote);
    match a {
      case VerifyBytes => ThreadMove(s, k, s.row, Record(pc.receipt), remote);
      case RecordVerified => ThreadMove(s, k, s'.row, Pin(pc.receipt), remote);
      case PinVersion => PinStepInv(s, k, pc.receipt, remote);
      case Submit => SubmitInv(s, k, remote);
      case PushCall(_) => PushInv(s, k, a, remote);
    }
  }

  lemma TransitionInv(s: JobState, k: nat, expected: set<Status>, status: Status, progress: int, next: Pc, remote: Remote)
    requires Inv(s, remote) && k in s.threads
    requires BeforeSubmission(s.threads[k].pc) && !s.threads[k].pc.AwaitUpload?
    requires (next.Verify? && status == WaitingDataset) || (next.Uploading? && status == UploadingDataset)
    requires ReceiptOk(s.row.datasetRef, s.view, s.children, s.sources, next, remote)
    ensures Inv(Transition(s, k, expected, status, progress, next), remote)
  {
    hide RefSlug, AllPinned, SameSlug, Files, Children, History, Fresh, Exclusive, Threads, Serves, RowOk, PlaceOk, ReceiptOk;
    var s' := Transition(s, k, expected, status, progress, next);
    ThreadFacts(s, k, remote);
    if !s.row.cancelRequested { TransitionRow(s.row, s.entered, s.pushes != [], s.threads[k], status, progress, next); }
    if Matches(s.row, expected, true) {
      ThreadMove(s, k, s'.row, next, remote);
    } else {
      TransitionFails(s, k, CancelSeen(s.row), remote);
    }
  }

  lemma TransitionRow(row: Row, entered: bool, pushed: bool, t: Thread, status: Status, progress: int, next: Pc)
    requires RowOk(row, entered) && PlaceOk(row, entered, pushed, t) && BeforeSubmission(t.pc) && !row.cancelRequested
    requires (next.Verify? && status == WaitingDataset) || (next.Uploading? && status == UploadingDataset)
    ensures var row' := UpdateJob(row, Update(status := Some(status), progress := Some(progress)));
      RowOk(row', entered) && PlaceOk(row', entered, pushed, Thread(t.kind, next))
  {
  }

  lemma TransitionFails(s: JobState, k: nat, canceled: bool, remote: Remote)
    requires Inv(s, remote) && k in s.threads && BeforeSubmission(s.threads[k].pc) && !s.threads[k].pc.AwaitUpload?
    ensures Inv(At(s, k, if canceled then CancelWrite else Raised), remote)
  {
    hide RefSlug, AllPinned, SameSlug, Files, Children, History, Fresh, Exclusive, Threads, Serves, RowOk;
    ThreadFacts(s, k, remote);
    assert At(s.(row := s.row), k, if canceled then CancelWrite else Raised) == At(s, k, if canceled then CancelWrite else Raised);
    ThreadMove(s, k, s.row, if canceled then CancelWrite else Raised, remote);
  }

  lemma AcquireInv(s: JobState, k: nat, a: RunAction, remote: Remote)
    requires Inv(s, remote) && k in s.threads && a.Acquire? && RunEnabled(s, k, a, remote)
    ensures Inv(CacheStep(s, k, a, remote), remote)
  {
    hide RefSlug, AllPinned, SameSlug, Rewritten, Files, History, RowOk;
    var s' := CacheStep(s, k, a, remote);
    ThreadFacts(s, k, remote);
    if s.row.datasetRef !in s.view {
      NoChildWithoutIntent(s, k, remote);
    }
    assert Fresh(s') by { FreshFrame(s, s'); }
    assert s'.threads == map[k := s'.threads[k]];
    forall c | c in s'.children ensures ChildOk(s', c) && (s'.children[c].stage.Checked? ==> Attended(s', c)) {
      assert ChildOk(s, c) && (s.children[c].stage.Checked? ==> Attended(s, c));
    }
  }

  /** A run that is not itself waiting for an upload child and sees no intent shares the job with no child. */
  lemma NoChildWithoutIntent(s: JobState, k: nat, remote: Remote)
    requires Inv(s, remote) && k in s.threads && s.threads[k].kind != Resume && !s.threads[k].pc.AwaitUpload?
    requires s.row.datasetRef !in s.view
    ensures s.children == map[]
  {
    hide RefSlug, AllPinned, SameSlug, Files, History, RowOk, Fresh, Threads;
  }

  lemma PinStepInv(s: JobState, k: nat, r: Receipt, remote: Remote)
    requires Inv(s, remote) && k in s.threads && s.threads[k].pc == Pin(r)
    ensures Inv(PinStep(s, k, r), remote)
  {
    hide RefSlug, AllPinned, SameSlug, Files, Children, History, Fresh, Exclusive, Threads, Serves, RowOk, Pinned;
    ThreadFacts(s, k, remote);
    if CancelSeen(s.row) {
      TransitionFails(s, k, true, remote);
    } else {
      PinInv(s, k, r, Ready(r), remote);
    }
  }

  lemma PinInv(s: JobState, k: nat, r: Receipt, next: Pc, remote: Remote)
    requires Inv(s, remote) && k in s.threads
    requires (s.threads[k].pc == CachePin(r) && next == CacheRecord(r)) || (s.threads[k].pc == Pin(r) && next == Ready(r))
    ensures Inv(At(s.(sources := Pinned(s.sources, s.row.datasetRef, r.version)), k, next), remote)
  {
    hide RefSlug, AllPinned, SameSlug, Pinned, Files, History, RowOk, Fresh, Serves;
    var s' := At(s.(sources := Pinned(s.sources, s.row.datasetRef, r.version)), k, next);
    ThreadFacts(s, k, remote);
    assert Fresh(s') by { FreshFrame(s, s'); }
    if RefSlug(s.row.datasetRef) != "" {
      PinsEverySource(s.sources, s.row.datasetRef, r.version);
    }
    assert s'.threads == map[k := s'.threads[k]];
    forall c | c in s'.children ensures ChildOk(s', c) && (s'.children[c].stage.Checked? ==> Attended(s', c)) {
      assert ChildOk(s, c) && (s.children[c].stage.Checked? ==> Attended(s, c));
    }
  }

  lemma StartUploadInv(s: JobState, k: nat, c: nat, version: nat, remote: Remote)
    requires Inv(s, remote) && k in s.threads && RunEnabled(s, k, StartUpload(c, version), remote)
    ensures Inv(UploadStep(s, k, StartUpload(c, version), remote), remote)
  {
    hide RefSlug, AllPinned, SameSlug, History, RowOk, Fresh;
    var s' := UploadStep(s, k, StartUpload(c, version), remote);
    ThreadFacts(s, k, remote);
    NoChildWithoutIntent(s, k, remote);
    assert Fresh(s') by { FreshFrame(s, s'); }
    assert s'.children == map[c := Child(Receipt(version, s.local), Checked)];
    assert s'.threads == map[k := s'.threads[k]];
    NoCallWithoutIntent(s.row.datasetRef, s.view, s.disk, s.calls);
    assert Attended(s', c);
  }

  lemma NoCallWithoutIntent(ref: string, view: Intents, disk: Intents, calls: seq<Call>)
    requires Files(ref, view, disk, calls)
    ensures calls != [] ==> ref in view
  {
    if calls != [] {
      assert calls[0].datasetRef == ref;
    }
  }

  lemma UploadReturnedInv(s: JobState, k: nat, remote: Remote)
    requires Inv(s, remote) && k in s.threads && RunEnabled(s, k, UploadReturned, remote)
    ensures Inv(UploadStep(s, k, UploadReturned, remote), remote)
  {
    hide RefSlug, AllPinned, SameSlug, Files, History, RowOk, Fresh;
    var s' := UploadStep(s, k, UploadReturned, remote);
    ThreadFacts(s, k, remote);
    var c := s.threads[k].pc.child;
    assert ChildOk(s, c);
    assert Fresh(s') by { FreshFrame(s, s'); }
    assert s'.children == map[];
    assert s'.threads == map[k := s'.threads[k]];
  }

  lemma SubmitInv(s: JobState, k: nat, remote: Remote)
    requires Inv(s, remote) && k in s.threads && RunEnabled(s, k, Submit, remote)
    ensures Inv(SubmitStep(s, k, Submit, remote), remote)
  {
    hide Inv, CancelSeen, UpdateJob;
    if Matches(s.row, {Queued, WaitingDataset}, true) {
      SubmittedInv(s, k, remote);
    } else {
      TransitionFails(s, k, CancelSeen(s.row), remote);
      UnsubmittedInv(s, k, if CancelSeen(s.row) then CancelWrite else Raised, remote);
    }
  }

  lemma UnsubmittedInv(s: JobState, k: nat, pc: Pc, remote: Remote)
    requires k in s.threads && !pc.Push? && Inv(At(s, k, pc), remote)
    ensures var r := At(s, k, pc); Inv(r.(entered := s.entered || r.threads[k].pc.Push?), remote)
  {
    hide Inv;
    var r := At(s, k, pc);
    assert r.(entered := s.entered || r.threads[k].pc.Push?) == r;
  }

  lemma SubmittedInv(s: JobState, k: nat, remote: Remote)
    requires Inv(s, remote) && k in s.threads && s.threads[k].pc.Ready? && !s.row.cancelRequested
    ensures var row' := UpdateJob(s.row, Update(status := Some(PushingKernel), progress := Some(45)));
      Inv(At(s.(row := row'), k, Push(s.threads[k].pc.receipt)).(entered := true), remote)
  {
    hide RefSlug, AllPinned, SameSlug, Files, Fresh, Serves, RowOk, PlaceOk, ReceiptOk, ChildOk;
    var row' := UpdateJob(s.row, Update(status := Some(PushingKernel), progress := Some(45)));
    var r := s.threads[k].pc.receipt;
    var s' := At(s.(row := row'), k, Push(r)).(entered := true);
    ThreadFacts(s, k, remote);
    SubmittedRow(s.row, s.entered, s.threads[k]);
    ReadyReceipt(s, r, remote);
    assert s'.threads == map[k := Thread(s.threads[k].kind, Push(r))];
    assert Fresh(s') by { FreshFrame(s, s'); }
    forall c | c in s'.children ensures ChildOk(s', c) && (s'.children[c].stage.Checked? ==> Attended(s', c)) {
      ChildUnmoved(s, s', c);
      NoCheckedChild(s, k, c, remote);
    }
  }

  lemma SubmittedRow(row: Row, entered: bool, t: Thread)
    requires RowOk(row, entered) && PlaceOk(row, entered, false, t) && t.pc.Ready? && !row.cancelRequested
    ensures var row' := UpdateJob(row, Update(status := Some(PushingKernel), progress := Some(45)));
      RowOk(row', true) && PlaceOk(row', true, false, Thread(t.kind, Push(t.pc.receipt)))
  {
  }

  lemma ReadyReceipt(s: JobState, r: Receipt, remote: Remote)
    requires ReceiptOk(s.row.datasetRef, s.view, s.children, s.sources, Ready(r), remote)
    ensures ReceiptOk(s.row.datasetRef, s.view, s.children, s.sources, Push(r), remote)
  {
  }

  lemma ChildUnmoved(s: JobState, s': JobState, c: nat)
    requires c in s.children && ChildOk(s, c)
    requires s'.children == s.children && s'.view == s.view && s'.disk == s.disk && s'.calls == s.calls && s'.row.datasetRef == s.row.datasetRef
    ensures ChildOk(s', c)
  {
  }

  /** Only the run that awaits it shares the job with a child that has not yet written the intent. */
  lemma NoCheckedChild(s: JobState, k: nat, c: nat, remote: Remote)
    requires Inv(s, remote) && k in s.threads && s.threads[k].kind != Resume && !s.threads[k].pc.AwaitUpload? && c in s.children
    ensures !s.children[c].stage.Checked?
  {
    hide RefSlug, AllPinned, SameSlug, Files, History, RowOk, Fresh, Threads, ChildOk;
    assert s.children[c].stage.Checked? ==> Attended(s, c);
  }

  lemma FreshFrame(s: JobState, s': JobState)
    requires Fresh(s) && !s.assembly && !s'.assembly && !Early(s'.row.status)
    requires s'.row.dynamic == s.row.dynamic && s'.row.pending == s.row.pending && !AwaitingAssignment(s.row)
    ensures Fresh(s')
  {
  }

  lemma PushInv(s: JobState, k: nat, a: RunAction, remote: Remote)
    requires Inv(s, remote) && k in s.threads && a.PushCall? && RunEnabled(s, k, a, remote)
    ensures Inv(SubmitStep(s, k, a, remote), remote)
  {
    hide RefSlug, AllPinned, SameSlug, Files, Fresh, Serves, RowOk, PlaceOk, ReceiptOk, ChildOk, PushOk;
    var s' := SubmitStep(s, k, a, remote);
    var t := s.threads[k];
    ThreadFacts(s, k, remote);
    assert s'.threads == map[k := s'.threads[k]];
    PushedPlace(s.row, s.entered, s.pushes, t, a.raises);
    PushedReceipt(s, t.pc.receipt, if a.raises then Raised else Finish(Complete, 0), remote);
    forall c | c in s'.children ensures ChildOk(s', c) && (s'.children[c].stage.Checked? ==> Attended(s', c)) {
      assert ChildOk(s, c) && (s.children[c].stage.Checked? ==> Attended(s, c));
      ChildUnmoved(s, s', c);
    }
    assert Fresh(s') by { FreshFrame(s, s'); }
  }

  lemma PushedPlace(row: Row, entered: bool, pushes: seq<PushRecord>, t: Thread, raises: bool)
    requires RowOk(row, entered) && PlaceOk(row, entered, pushes != [], t) && t.pc.Push?
    ensures entered && pushes == [] && t.kind != Resume
    ensures PlaceOk(row, entered, true, Thread(t.kind, if raises then Raised else Finish(Complete, 0)))
  {
  }

  lemma PushedReceipt(s: JobState, r: Receipt, pc: Pc, remote: Remote)
    requires ReceiptOk(s.row.datasetRef, s.view, s.children, s.sources, Push(r), remote) && (pc.Raised? || pc.Finish?)
    ensures ReceiptOk(s.row.datasetRef, s.view, s.children, s.sources, pc, remote)
    ensures PushOk(s.row.datasetRef, PushRecord(s.row.datasetRef, r, s.sources, Get(s.view, s.row.datasetRef)), remote)
  {
    hide RefSlug, AllPinned, Serves;
  }

  lemma ChildInv(s: JobState, c: nat, a: ChildAction, remote: Remote)
    requires Inv(s, remote) && c in s.children && ChildEnabled(s, c, a)
    ensures Inv(ChildStep(s, c, a), remote)
  {
    hide RefSlug, AllPinned, SameSlug, History, RowOk, PlaceOk, ReceiptOk, Fresh, Files, ChildOk, ChildStep;
    var s' := ChildStep(s, c, a);
    ChildFrame(s, c, a);
    assert ChildOk(s, c) && (s.children[c].stage.Checked? ==> Attended(s, c));
    assert Fresh(s') by { ChildKeepsFresh(s, s', c); }
    assert s'.children == map[c := s'.children[c]];
    ChildFiles(s, c, a);
    forall k | k in s'.threads ensures ThreadOk(s', s'.threads[k], remote) {
      assert ThreadOk(s, s.threads[k], remote);
      ChildReceipt(s, c, a, s.threads[k], remote);
    }
  }

  lemma ChildFrame(s: JobState, c: nat, a: ChildAction)
    requires c in s.children && ChildEnabled(s, c, a)
    ensures var s' := ChildStep(s, c, a);
      && c in s'.children && !s'.children[c].stage.Checked?
      && s' == s.(view := s'.view, disk := s'.disk, calls := s'.calls, children := s.children[c := s'.children[c]])
  {
  }

  lemma ChildReceipt(s: JobState, c: nat, a: ChildAction, t: Thread, remote: Remote)
    requires c in s.children && ChildOk(s, c) && ChildEnabled(s, c, a)
    requires PlaceOk(s.row, s.entered, s.pushes != [], t)
    requires ReceiptOk(s.row.datasetRef, s.view, s.children, s.sources, t.pc, remote)
    requires s.children[c].stage.Checked? ==> t.kind == Resume || t.pc == AwaitUpload(c)
    ensures var s' := ChildStep(s, c, a); ReceiptOk(s'.row.datasetRef, s'.view, s'.children, s'.sources, t.pc, remote)
  {
    hide PinnedTo, Serves, PlaceOk;
    assert !s.children[c].stage.Checked? ==> s.row.datasetRef in s.view;
    match a {
      case Rename => RenamedReceipt(s, c, t, remote);
      case SyncIntent => assert ChildStep(s, c, a).view == s.view;
      case RemoteCall => assert ChildStep(s, c, a).view == s.view;
      case Respond(_) => RespondedReceipt(s, c, a, t, remote);
      case SyncOutcome => assert ChildStep(s, c, a).view == s.view;
    }
  }

  lemma RenamedReceipt(s: JobState, c: nat, t: Thread, remote: Remote)
    requires c in s.children && ChildOk(s, c) && ChildEnabled(s, c, Rename)
    requires PlaceOk(s.row, s.entered, s.pushes != [], t)
    requires ReceiptOk(s.row.datasetRef, s.view, s.children, s.sources, t.pc, remote)
    requires t.kind == Resume || t.pc == AwaitUpload(c)
    ensures var s' := ChildStep(s, c, Rename); ReceiptOk(s'.row.datasetRef, s'.view, s'.children, s'.sources, t.pc, remote)
  {
    hide PinnedTo, Serves;
  }

  lemma RespondedReceipt(s: JobState, c: nat, a: ChildAction, t: Thread, remote: Remote)
    requires c in s.children && ChildOk(s, c) && a.Respond? && ChildEnabled(s, c, a)
    requires ReceiptOk(s.row.datasetRef, s.view, s.children, s.sources, t.pc, remote)
    ensures var s' := ChildStep(s, c, a); ReceiptOk(s'.row.datasetRef, s'.view, s'.children, s'.sources, t.pc, remote)
  {
    hide PinnedTo, Serves;
  }

  lemma ChildKeepsFresh(s: JobState, s': JobState, c: nat)
    requires Fresh(s) && c in s.children && s'.row == s.row && s'.assembly == s.assembly
    ensures Fresh(s')
  {
  }

  lemma ChildFiles(s: JobState, c: nat, a: ChildAction)
    requires Files(s.row.datasetRef, s.view, s.disk, s.calls) && c in s.children && ChildOk(s, c) && ChildEnabled(s, c, a)
    ensures var s' := ChildStep(s, c, a); ChildOk(s', c) && Files(s'.row.datasetRef, s'.view, s'.disk, s'.calls)
  {
    hide Files;
    var ref, r := s.row.datasetRef, s.children[c].receipt;
    NoCallWithoutIntent(ref, s.view, s.disk, s.calls);
    IntentFacts(ref, s.view, s.disk, s.calls);
    match a {
      case Rename => OneIntent(ref, s.view, s.disk, s.calls, Intent(r.version, r.digest, Unknown));
      case SyncIntent => SyncedFiles(ref, s.view, s.disk, s.calls, r);
      case RemoteCall => SyncedFiles(ref, s.view, s.disk, s.calls, r);
      case Respond(_) => OneIntent(ref, s.view, s.disk, s.calls, Intent(r.version, r.digest, if a.success then Accepted else Rejected));
      case SyncOutcome => SyncedFiles(ref, s.view, s.disk, s.calls, r);
    }
  }

  lemma IntentFacts(ref: string, view: Intents, disk: Intents, calls: seq<Call>)
    requires Files(ref, view, disk, calls)
    ensures ref in view ==> view[ref].version > 0
    ensures ref !in view ==> ref !in disk
  {
  }

  /** Writing the first intent, or the outcome of the current one, keeps the files in order. */
  lemma OneIntent(ref: string, view: Intents, disk: Intents, calls: seq<Call>, i: Intent)
    requires Files(ref, view, disk, calls) && i.version > 0
    requires ref in view ==> Binding(view[ref]) == Binding(i) && (ref in disk ==> disk[ref].state == Unknown)
    ensures Files(ref, view[ref := i], disk, calls)
    ensures view[ref := i] == map[ref := i]
  {
    assert forall r :: r in view ==> r == ref;
  }

  lemma SyncedFiles(ref: string, view: Intents, disk: Intents, calls: seq<Call>, r: Receipt)
    requires Files(ref, view, disk, calls)
    ensures Files(ref, view, view, calls)
    ensures ref in disk && Binding(disk[ref]) == r && calls == [] ==> Files(ref, view, disk, calls + [Call(ref, r)])
  {
    forall i | 0 <= i < |calls| ensures calls[i].datasetRef == ref && ref in view && Binding(view[ref]) == calls[i].receipt {
      assert calls[i].datasetRef == ref;
    }
  }

  // ---- requests, scheduler, scanner ----

  /** Nothing has been uploaded yet and no thread runs: only the row, the queue and the extracted files change. */
  lemma QuietInv(s: JobState, remote: Remote)
    requires Untouched(s.(queue := multiset{})) && !s.active && !s.recovering && Fresh(s) && RowOk(s.row, s.entered)
    requires forall f :: ResumeItem(f) !in s.queue
    ensures Inv(s, remote)
  {
    hide RefSlug, AllPinned, SameSlug;
  }

  /** Only the row and the queue change, the row keeps its reference and stays out of the early statuses. */
  lemma RowMove(s: JobState, row: Row, queue: multiset<Item>, remote: Remote)
    requires Inv(s, remote) && !s.recovering && !s.assembly && !Early(s.row.status) && !AwaitingAssignment(s.row)
    requires row.datasetRef == s.row.datasetRef && row.dynamic == s.row.dynamic && row.pending == s.row.pending
    requires !Early(row.status) && RowOk(row, s.entered)
    requires forall k :: k in s.threads ==> PlaceOk(row, s.entered, s.pushes != [], s.threads[k])
    requires forall f :: ResumeItem(f) in queue ==> Terminal(f)
    requires PrePush(row.status) ==> row.status == s.row.status || (s.row.status.WaitingDataset? && row.status.Queued?)
    ensures Inv(s.(row := row, queue := queue), remote)
  {
    hide RefSlug, AllPinned, SameSlug, RowOk, PlaceOk, ReceiptOk, Files, History, ChildOk, Fresh;
    var s' := s.(row := row, queue := queue);
    assert Fresh(s') by { FreshFrame(s, s'); }
    forall c | c in s'.children ensures ChildOk(s', c) && (s'.children[c].stage.Checked? ==> Attended(s', c)) {
      assert ChildOk(s, c) && (s.children[c].stage.Checked? ==> Attended(s, c));
      ChildUnmoved(s, s', c);
    }
    forall k | k in s'.threads ensures ThreadOk(s', s'.threads[k], remote) {
      assert ThreadOk(s, s.threads[k], remote);
    }
  }

  lemma ServerInv(s: JobState, a: ServerAction, remote: Remote)
    requires Inv(s, remote) && !s.recovering && ServerEnabled(s, a)
    ensures Inv(ServerStep(s, a), remote)
  {
    hide RefSlug, AllPinned, SameSlug, Files, Children, History, Threads, RewriteOwner, RowOk, Fresh, Exclusive, Requeue;
    match a {
      case Dequeue(item, k) => DequeueInv(s, item, k, remote);
      case SkipItem(item) => SkipInv(s, item, remote);
      case Supersede(item) => SkipInv(s, item, remote);
      case RequestCancel => if Early(s.row.status) || AwaitingAssignment(s.row) { EarlyInv(s, a, remote); } else { CancelInv(s, remote); }
      case Callback(target, p) => if Early(s.row.status) || s.assembly { EarlyInv(s, a, remote); } else { CallbackInv(s, target, p, remote); }
      case ResumeMonitoring => ResumeInv(s, remote);
      case ManualRecheck(_) => RequeueInv(s, remote);
      case ClaimRecheck => RequeueInv(s, remote);
      case PlanRecheck(r) => PlanInv(s, r, remote);
      case ChangeLocal(c) => LocalInv(s, c, remote);
    }
  }

  /** Intake happens before submission starts. */
  lemma IntakeInv(s: JobState, a: IntakeAction, remote: Remote)
    requires Inv(s, remote) && !s.recovering && IntakeEnabled(s, a)
    ensures Inv(IntakeStep(s, a), remote)
  {
    hide RefSlug, AllPinned, SameSlug, Files, Children, History, Threads, RewriteOwner;
    QuietInv(IntakeStep(s, a), remote);
  }

  /** A cancellation or a callback that reaches a job whose submission has not started. */
  lemma EarlyInv(s: JobState, a: ServerAction, remote: Remote)
    requires Inv(s, remote) && !s.recovering && ServerEnabled(s, a)
    requires (a.RequestCancel? && (Early(s.row.status) || AwaitingAssignment(s.row))) || (a.Callback? && (Early(s.row.status) || s.assembly))
    ensures Inv(ServerStep(s, a), remote)
  {
    hide RefSlug, AllPinned, SameSlug, Files, Children, History, Threads;
    QuietInv(ServerStep(s, a), remote);
  }

  lemma LocalInv(s: JobState, content: Content, remote: Remote)
    requires Inv(s, remote)
    ensures Inv(s.(local := content), remote)
  {
    hide RefSlug, AllPinned, SameSlug, Files, History, RowOk, PlaceOk, ReceiptOk, ChildOk;
    var s' := s.(local := content);
    assert Fresh(s');
    forall c | c in s'.children ensures ChildOk(s', c) && (s'.children[c].stage.Checked? ==> Attended(s', c)) {
      assert ChildOk(s, c) && (s.children[c].stage.Checked? ==> Attended(s, c));
      ChildUnmoved(s, s', c);
    }
    forall k | k in s'.threads ensures ThreadOk(s', s'.threads[k], remote) {
      assert ThreadOk(s, s.threads[k], remote);
    }
  }

  lemma SkipInv(s: JobState, item: Item, remote: Remote)
    requires Inv(s, remote) && !s.recovering && item in s.queue
    ensures Inv(s.(queue := s.queue - multiset{item}), remote)
  {
    hide RefSlug, AllPinned, SameSlug, Files, History, RowOk, PlaceOk, ReceiptOk, Children;
    assert s.(row := s.row, queue := s.queue - multiset{item}) == s.(queue := s.queue - multiset{item});
    forall k | k in s.threads ensures PlaceOk(s.row, s.entered, s.pushes != [], s.threads[k]) {
      assert ThreadOk(s, s.threads[k], remote);
    }
    RowMove(s, s.row, s.queue - multiset{item}, remote);
  }

  lemma CancelInv(s: JobState, remote: Remote)
    requires Inv(s, remote) && !s.recovering && ServerEnabled(s, RequestCancel) && !Early(s.row.status) && !AwaitingAssignment(s.row)
    ensures Inv(ServerStep(s, RequestCancel), remote)
  {
    hide RefSlug, AllPinned, SameSlug, Files, History, ReceiptOk, Children, Fresh, Exclusive;
    var row := UpdateJob(s.row, CancelUpdate(s.row.status));
    forall k | k in s.threads ensures PlaceOk(row, s.entered, s.pushes != [], s.threads[k]) {
      assert ThreadOk(s, s.threads[k], remote);
    }
    assert s.(row := row, queue := s.queue) == s.(row := row);
    RowMove(s, row, s.queue, remote);
  }

  lemma CallbackInv(s: JobState, target: Status, progress: int, remote: Remote)
    requires Inv(s, remote) && !s.recovering && ServerEnabled(s, Callback(target, progress)) && !Early(s.row.status) && !s.assembly
    ensures Inv(ServerStep(s, Callback(target, progress)), remote)
  {
    hide RefSlug, AllPinned, SameSlug, Files, History, ReceiptOk, Children, Fresh, Exclusive;
    var row := s.row.(status := target, progress := progress);
    forall k | k in s.threads ensures PlaceOk(row, s.entered, s.pushes != [], s.threads[k]) {
      assert ThreadOk(s, s.threads[k], remote);
    }
    assert s.(row := row, queue := s.queue) == s.(row := row);
    assert !AwaitingAssignment(s.row);
    RowMove(s, row, s.queue, remote);
  }

  lemma ResumeInv(s: JobState, remote: Remote)
    requires Inv(s, remote) && !s.recovering && ServerEnabled(s, ResumeMonitoring)
    ensures Inv(ServerStep(s, ResumeMonitoring), remote)
  {
    hide RefSlug, AllPinned, SameSlug, Files, History, ReceiptOk, PlaceOk, Children;
    var s' := ServerStep(s, ResumeMonitoring);
    assert s' == s.(row := s'.row, queue := s'.queue);
    RowMove(s, s'.row, s'.queue, remote);
  }

  lemma RequeueInv(s: JobState, remote: Remote)
    requires Inv(s, remote) && !s.recovering && !s.assembly && s.row.status == WaitingDataset && s.row.error == RetainedCandidate
    ensures Inv(Requeue(s), remote)
  {
    hide RefSlug, AllPinned, SameSlug, Files, History, ReceiptOk, Children, Exclusive;
    if Matches(s.row, {WaitingDataset}, true) {
      var s' := Requeue(s);
      forall k | k in s.threads ensures PlaceOk(s'.row, s.entered, s.pushes != [], s.threads[k]) {
        assert ThreadOk(s, s.threads[k], remote);
      }
      assert s' == s.(row := s'.row, queue := s'.queue);
      RowMove(s, s'.row, s'.queue, remote);
    }
  }

  lemma PlanInv(s: JobState, recheck: Recheck, remote: Remote)
    requires Inv(s, remote) && !s.recovering && ServerEnabled(s, PlanRecheck(recheck))
    ensures Inv(ServerStep(s, PlanRecheck(recheck)), remote)
  {
    hide RefSlug, AllPinned, SameSlug, Files, History, ReceiptOk, PlaceOk, Children;
    var s' := ServerStep(s, PlanRecheck(recheck));
    assert s' == s.(row := s'.row, queue := s'.queue);
    RowMove(s, s'.row, s'.queue, remote);
  }

  lemma DequeueInv(s: JobState, item: Item, k: nat, remote: Remote)
    requires Inv(s, remote) && !s.recovering && ServerEnabled(s, Dequeue(item, k))
    ensures Inv(ServerStep(s, Dequeue(item, k)), remote)
  {
    hide RefSlug, AllPinned, SameSlug, Files, History, ChildOk, RowOk, PlaceOk, ReceiptOk;
    var s' := ServerStep(s, Dequeue(item, k));
    assert s.threads == map[];
    assert s'.threads == map[k := s'.threads[k]];
    DequeuedPlace(s, item, s'.threads[k], remote);
    forall c | c in s'.children ensures ChildOk(s', c) && (s'.children[c].stage.Checked? ==> Attended(s', c)) {
      assert ChildOk(s, c) && (s.children[c].stage.Checked? ==> Attended(s, c));
      ChildUnmoved(s, s', c);
    }
  }

  /** A queued job was never pushed, and a resumed one has left the statuses before the push. */
  lemma DequeuedPlace(s: JobState, item: Item, t: Thread, remote: Remote)
    requires RowOk(s.row, s.entered) && s.row.status in ExpectedStatuses(item) && (item.ResumeItem? ==> Terminal(item.final))
    requires t == Thread(if item.RecheckItem? then RecheckRun else if item.ProcessItem? then Process else Resume,
                         if item.ResumeItem? then Finish(item.final, 0) else Begin)
    ensures PlaceOk(s.row, s.entered, s.pushes != [], t) && ReceiptOk(s.row.datasetRef, s.view, s.children, s.sources, t.pc, remote)
  {
    hide Serves, PinnedTo;
  }

  // ---- restart recovery ----

  lemma RecoverInv(s: JobState, o: Observed, remote: Remote)
    requires Inv(s, remote) && s.recovering
    ensures Inv(RecoverStep(s, o), remote)
  {
    hide RefSlug, AllPinned, SameSlug, Files, History, RowOk, ChildOk, Fresh;
    var s' := RecoverStep(s, o);
    if Early(s.row.status) || AwaitingAssignment(s.row) {
      RecoverEarly(s, o, remote);
    } else if PrePush(s.row.status) && !s.row.status.Queued? {
      RecoverUpload(s, o, remote);
    } else {
      RecoverRow(s, o);
      RecoverMove(s, s'.row, s'.queue, remote);
      assert s' == s.(row := s'.row, queue := s'.queue, recovering := false);
    }
  }

  lemma RecoverEarly(s: JobState, o: Observed, remote: Remote)
    requires Inv(s, remote) && s.recovering && (Early(s.row.status) || AwaitingAssignment(s.row))
    ensures Inv(RecoverStep(s, o), remote)
  {
    hide RefSlug, AllPinned, SameSlug, Files, Children, History, Threads, RecoverCandidate;
    QuietInv(RecoverStep(s, o), remote);
  }

  predicate SameJob(row: Row, row': Row) {
    row'.datasetRef == row.datasetRef && row'.dynamic == row.dynamic && row'.pending == row.pending
  }

  lemma EndedRow(row: Row, entered: bool, end: Status, progress: Option<int>)
    requires RowOk(row, entered) && Terminal(end)
    ensures var r := UpdateJob(row, Update(status := Some(end), progress := progress, error := Some(OtherError)));
      RowOk(r, entered) && !PrePush(r.status) && SameJob(row, r)
  {
  }

  lemma RequeuedRow(row: Row, entered: bool)
    requires RowOk(row, entered) && (row.status.UploadingDataset? || row.status.WaitingDataset?) && !row.cancelRequested
    ensures var r := UpdateJob(row, Update(status := Some(Queued), error := Some(NoError)));
      RowOk(r, entered) && r.status.Queued? && SameJob(row, r)
  {
  }

  predicate EndsWell(s: JobState, s': JobState) {
    && s' == s.(row := s'.row, queue := s'.queue, recovering := false)
    && SameJob(s.row, s'.row) && RowOk(s'.row, s.entered) && (PrePush(s'.row.status) ==> s'.row.status == s.row.status)
    && forall f :: ResumeItem(f) in s'.queue ==> Terminal(f)
  }

  lemma RunItemRuns(row: Row)
    ensures !RunItem(row).ResumeItem?
  {
  }

  lemma CancelRecovered(s: JobState, o: Observed)
    requires RowOk(s.row, s.entered) && s.queue == multiset{} && !AwaitingAssignment(s.row) && s.row.status.CancelRequested?
    ensures Closing(s, RecoverCancel(s, o))
  {
    hide UpdateJob, RowOk, RecoverEnqueue, RecoverFail, PrePush, Closing;
    if s.row.progress >= 60 || o.pushLogged || (s.row.progress >= 45 && o.probe == Visible) {
      ClosingQueued(s);
    } else if s.row.progress >= 45 && o.probe == ProbeError {
      ClosingFailed(s);
    } else {
      ClosingCanceled(s);
    }
  }

  /** Recovery of a canceled job: it is resumed or it ends. */
  predicate Closing(s: JobState, s': JobState) {
    && s' == s.(row := s'.row, queue := s'.queue)
    && SameJob(s.row, s'.row) && RowOk(s'.row, s.entered) && !PrePush(s'.row.status)
    && forall f :: ResumeItem(f) in s'.queue ==> Terminal(f)
  }

  lemma ClosingQueued(s: JobState)
    requires RowOk(s.row, s.entered) && s.queue == multiset{} && !AwaitingAssignment(s.row) && s.row.status.CancelRequested?
    ensures Closing(s, RecoverEnqueue(s, ResumeItem(Canceled)))
  {
    hide RowOk;
  }

  lemma ClosingFailed(s: JobState)
    requires RowOk(s.row, s.entered) && s.queue == multiset{}
    ensures Closing(s, RecoverFail(s))
  {
    hide UpdateJob, RowOk;
    EndedRow(s.row, s.entered, Failed, Some(0));
  }

  lemma ClosingCanceled(s: JobState)
    requires RowOk(s.row, s.entered) && s.queue == multiset{}
    ensures Closing(s, s.(row := UpdateJob(s.row, Update(status := Some(Canceled), error := Some(OtherError)))))
  {
    hide UpdateJob, RowOk;
    EndedRow(s.row, s.entered, Canceled, None);
  }

  /** The effect of recovery on a job past its upload: the row keeps its status or ends, and at most one item is queued. */
  lemma RecoverRow(s: JobState, o: Observed)
    requires RowOk(s.row, s.entered) && s.queue == multiset{}
    requires s.recovering && !AwaitingAssignment(s.row)
    requires !s.row.status.Assembling? && !s.row.status.UploadingDataset? && !s.row.status.WaitingDataset?
    ensures EndsWell(s, RecoverStep(s, o))
  {
    hide UpdateJob, RecoverCandidate, RowOk, RecoverEnqueue, RecoverCancel, RecoverFail, RecoverAssembly, RunItem, AwaitingAssignment;
    var t := s.(recovering := false);
    match s.row.status {
      case Queued => RunItemRuns(s.row); QueuesItem(s, t, RunItem(s.row));
      case WaitingKernel => QueuesItem(s, t, ResumeItem(Complete));
      case DownloadingOutput => QueuesItem(s, t, ResumeItem(Complete));
      case CancelRequested => CancelRecovered(t, o); assert Closing(t, RecoverCancel(t, o)); EndsAfter(s, t, RecoverCancel(t, o));
      case PushingKernel =>
        if o.probe == Visible { QueuesItem(s, t, ResumeItem(Complete)); } else { FailEnds(s, t); }
      case _ => EndsAfter(s, t, t);
    }
  }

  lemma EndsAfter(s: JobState, t: JobState, u: JobState)
    requires t == s.(recovering := false) && u == t.(row := u.row, queue := u.queue) && SameJob(s.row, u.row) && RowOk(u.row, s.entered)
    requires (PrePush(u.row.status) ==> u.row.status == s.row.status) && forall f :: ResumeItem(f) in u.queue ==> Terminal(f)
    ensures EndsWell(s, u)
  {
    hide RowOk, PrePush;
  }

  lemma QueuesItem(s: JobState, t: JobState, item: Item)
    requires t == s.(recovering := false) && RowOk(s.row, s.entered)
    requires s.queue == multiset{} && !AwaitingAssignment(s.row) && (item.ResumeItem? ==> Terminal(item.final))
    ensures EndsWell(s, RecoverEnqueue(t, item))
  {
    hide RowOk, PrePush;
  }

  lemma FailEnds(s: JobState, t: JobState)
    requires t == s.(recovering := false) && RowOk(s.row, s.entered) && s.queue == multiset{}
    ensures EndsWell(s, RecoverFail(t))
  {
    hide UpdateJob, RowOk;
    EndedRow(s.row, s.entered, Failed, Some(0));
  }

  /** A restart decision that writes the row and enqueues at most one item. */
  lemma RecoverMove(s: JobState, row: Row, queue: multiset<Item>, remote: Remote)
    requires Inv(s, remote) && s.recovering && !Early(s.row.status) && !AwaitingAssignment(s.row)
    requires row.datasetRef == s.row.datasetRef && row.dynamic == s.row.dynamic && row.pending == s.row.pending
    requires !Early(row.status) && RowOk(row, s.entered)
    requires forall f :: ResumeItem(f) in queue ==> Terminal(f)
    requires PrePush(row.status) ==> (row.status == s.row.status && !row.status.UploadingDataset?) || (row.status.Queued? && s.row.datasetRef in s.view)
    ensures Inv(s.(row := row, queue := queue, recovering := false), remote)
  {
    hide RefSlug, AllPinned, SameSlug, RowOk, Files, History, Fresh;
    var s' := s.(row := row, queue := queue, recovering := false);
    assert Fresh(s') by { FreshFrame(s, s'); }
    forall c | c in s'.children ensures ChildOk(s', c) && (s'.children[c].stage.Checked? ==> Attended(s', c)) {
      assert ChildOk(s, c) && (s.children[c].stage.Checked? ==> Attended(s, c));
    }
  }

  lemma RecoverUpload(s: JobState, o: Observed, remote: Remote)
    requires Inv(s, remote) && s.recovering && !AwaitingAssignment(s.row) && (s.row.status.UploadingDataset? || s.row.status.WaitingDataset?)
    ensures Inv(RecoverStep(s, o), remote)
  {
    hide RefSlug, AllPinned, SameSlug, Files, Children, History, Threads, Fresh;
    var s' := RecoverStep(s, o);
    assert s' == s.(row := s'.row, queue := s'.queue, recovering := false);
    UploadRow(s, o);
    RecoverMove(s, s'.row, s'.queue, remote);
  }

  lemma UploadRow(s: JobState, o: Observed)
    requires s.recovering && RowOk(s.row, s.entered) && !AwaitingAssignment(s.row) && s.queue == multiset{}
    requires s.row.status.UploadingDataset? || s.row.status.WaitingDataset?
    ensures Requeues(s, RecoverStep(s, o))
  {
    hide UpdateJob, RowOk, RecoverCandidate, AwaitingAssignment;
    var t := s.(recovering := false);
    if s.row.status.UploadingDataset? {
      CandidateRow(s, t, o);
    } else if s.row.recheck != Checking && (s.row.recheck != NoRecheck || s.row.error == RetainedCandidate) {
      assert Requeues(s, t);
    } else {
      CandidateRow(s, t, o);
    }
  }

  /** Recovery of an interrupted candidate: it waits, it is queued under its intent, or it ends. */
  predicate Requeues(s: JobState, s': JobState) {
    && s' == s.(row := s'.row, queue := s'.queue, recovering := false)
    && SameJob(s.row, s'.row) && RowOk(s'.row, s.entered) && !Early(s'.row.status)
    && (PrePush(s'.row.status) ==> s'.row.status == s.row.status == WaitingDataset || (s'.row.status.Queued? && s.row.datasetRef in s.view))
    && forall f :: ResumeItem(f) !in s'.queue
  }

  lemma CandidateRow(s: JobState, t: JobState, o: Observed)
    requires t == s.(recovering := false) && RowOk(s.row, s.entered) && !AwaitingAssignment(s.row) && s.queue == multiset{}
    requires s.row.status.UploadingDataset? || s.row.status.WaitingDataset?
    ensures Requeues(s, RecoverCandidate(t, o))
  {
    hide UpdateJob, RowOk;
    EndedRow(s.row, s.entered, Failed, Some(0));
    if !s.row.cancelRequested {
      RequeuedRow(s.row, s.entered);
    } else {
      CanceledUpload(s.row, s.entered);
    }
  }

  lemma CanceledUpload(row: Row, entered: bool)
    requires RowOk(row, entered) && row.cancelRequested
    ensures !row.status.UploadingDataset?
  {
  }

  // ---- every step ----

  lemma StepInv(s: JobState, a: Action, remote: Remote)
    requires Inv(s, remote) && Enabled(s, a, remote)
    ensures Inv(Step(s, a, remote), remote)
  {
    hide Inv, RunStep, MonitorStep, ErrorStep, ChildStep, IntakeStep, ServerStep, CrashStep, RecoverStep;
    match a {
      case Run(k, r) => RunInv(s, k, r, remote);
      case Monitor(k, m) => MonitorInv(s, k, m, remote);
      case Err(k, e) => ErrorInv(s, k, e, remote);
      case Upload(c, u) => ChildInv(s, c, u, remote);
      case Intake(i) => IntakeInv(s, i, remote);
      case Server(r) => ServerInv(s, r, remote);
      case Crash(kind) => CrashInv(s, kind, remote);
      case Recover(o) => RecoverInv(s, o, remote);
    }
  }
}
