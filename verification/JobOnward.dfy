/** What no step of a job can ever undo. */
module JobOnward {
  import opened Options
  import opened Database
  import opened KaggleRefs
  import opened JobProtocol
  import opened JobInvariants

  // ---- what one step can never undo ----

  predicate RowOnward(row: Row, entered: bool, row': Row, entered': bool) {
    && (Terminal(row.status) ==> row'.status == row.status)
    && (entered ==> entered')
    && (row.cancelRequested ==> row'.cancelRequested)
    && (row.cancelRequested && !entered ==> !entered')
    && row'.dynamic == row.dynamic
    && (!AwaitingAssignment(row) ==> !AwaitingAssignment(row') && row'.datasetRef == row.datasetRef)
  }

  predicate FilesOnward(s: JobState, t: JobState) {
    && s.calls <= t.calls && s.pushes <= t.pushes
    && (forall r :: r in s.disk ==> r in t.disk && Advances(s.disk[r], t.disk[r]))
  }

  /** Facts about a job that later states only extend. */
  predicate Onward(s: JobState, t: JobState) {
    RowOnward(s.row, s.entered, t.row, t.entered) && FilesOnward(s, t)
  }

  lemma OnwardTransitive(s: JobState, t: JobState, u: JobState)
    requires Onward(s, t) && Onward(t, u)
    ensures Onward(s, u)
  {
  }

  /** Most steps leave the history and the durable intents alone. */
  lemma FilesKept(s: JobState, t: JobState)
    requires t.calls == s.calls && s.pushes <= t.pushes && t.disk == s.disk
    ensures FilesOnward(s, t)
  {
  }

  lemma UpdateOnward(row: Row, entered: bool, u: Update)
    requires u.status.Some? ==> !Terminal(row.status)
    requires u.cancelRequested != Some(false) && u.pending != Some(true) && u.datasetRef.None?
    ensures RowOnward(row, entered, UpdateJob(row, u), entered)
  {
  }

  lemma FinalizeOnward(row: Row, entered: bool, preferred: Status, u: Update)
    requires u.cancelRequested != Some(false) && u.pending != Some(true) && u.datasetRef.None?
    ensures RowOnward(row, entered, Finalize(row, preferred, u), entered)
  {
  }

  /** A transition of process_job keeps a terminal or canceled row as it is. */
  lemma TransitionOnward(s: JobState, k: nat, expected: set<Status>, status: Status, progress: int, next: Pc)
    requires k in s.threads && (Matches(s.row, expected, true) ==> !Terminal(s.row.status))
    ensures var t := Transition(s, k, expected, status, progress, next);
      RowOnward(s.row, s.entered, t.row, s.entered) && FilesOnward(s, t) && t.entered == s.entered
      && (t.threads[k].pc == next || t.threads[k].pc == CancelWrite || t.threads[k].pc == Raised)
      && (t.threads[k].pc == next && next != CancelWrite && next != Raised ==> !s.row.cancelRequested)
  {
  }

  lemma RunPlace(s: JobState, k: nat, a: RunAction, remote: Remote)
    requires k in s.threads && RunEnabled(s, k, a, remote)
    ensures var pc := s.threads[k].pc;
      && (a.Prepare? ==> pc.Prepared?) && (a.AfterUpload? ==> pc.Uploaded?) && (a.Submit? ==> pc.Ready?)
      && (a.VerifyCached? ==> pc.CacheVerify? && Serves(remote, s.row.datasetRef, pc.receipt))
      && (a.VerifyBytes? ==> pc.Verify? && s.local == pc.receipt.digest && Serves(remote, s.row.datasetRef, pc.receipt))
      && (a.PinCached? ==> pc.CachePin?) && (a.RecordCached? ==> pc.CacheRecord?) && (a.RecordVerified? ==> pc.Record?) && (a.PinVersion? ==> pc.Pin?)
  {
    hide Serves;
  }

  lemma RunOnward(s: JobState, k: nat, a: RunAction, remote: Remote)
    requires k in s.threads && RunEnabled(s, k, a, remote)
    ensures Onward(s, RunStep(s, k, a, remote))
  {
    hide Rewritten, Pinned, Serves, Transition, AcquirePc, RowOnward, FilesOnward, UpdateJob, RefSlug, RunEnabled;
    var pc := s.threads[k].pc;
    RunPlace(s, k, a, remote);
    match a {
      case Prepare =>
        if pc.saved.Some? { TransitionOnward(s, k, {Queued}, WaitingDataset, 35, Verify(pc.saved.value)); }
        else { TransitionOnward(s, k, {Queued, UploadingDataset, WaitingDataset}, UploadingDataset, 20, Uploading); }
      case AfterUpload => TransitionOnward(s, k, {UploadingDataset}, WaitingDataset, 35, Verify(pc.receipt));
      case Submit => SubmitOnward(s, k, pc.receipt);
      case _ => QuietRunOnward(s, k, a, remote);
    }
  }

  /** The run actions that change no status: they touch at most progress, recheck, error or the metadata. */
  lemma QuietRunOnward(s: JobState, k: nat, a: RunAction, remote: Remote)
    requires k in s.threads && RunEnabled(s, k, a, remote)
    requires !a.Prepare? && !a.AfterUpload? && !a.Submit?
    ensures Onward(s, RunStep(s, k, a, remote))
  {
    hide RunEnabled, CacheStep, UploadStep, SubmitStep, Onward;
    if CachePath(a) {
      CacheOnward(s, k, a, remote);
    } else if UploadPath(a) {
      UploadOnward(s, k, a, remote);
    } else {
      QuietSubmitOnward(s, k, a, remote);
    }
  }

  lemma CacheOnward(s: JobState, k: nat, a: RunAction, remote: Remote)
    requires k in s.threads && RunEnabled(s, k, a, remote) && CachePath(a)
    ensures Onward(s, CacheStep(s, k, a, remote))
  {
    hide Rewritten, Pinned, Serves, AcquirePc, RowOnward, FilesOnward, UpdateJob, RefSlug, RunEnabled, Transition;
    var t := CacheStep(s, k, a, remote);
    Unchanged(s.row, s.entered);
    match a {
      case Acquire(_) => FilesKept(s, t);
      case VerifyCached => FilesKept(s, t);
      case PinCached => FilesKept(s, t);
      case RecordCached => UpdateOnward(s.row, s.entered, Update(progress := Some(40))); FilesKept(s, t);
    }
  }

  lemma UploadOnward(s: JobState, k: nat, a: RunAction, remote: Remote)
    requires k in s.threads && RunEnabled(s, k, a, remote) && (a.ReuseIntent? || a.StartUpload? || a.UploadReturned? || a.GiveUpUpload?)
    ensures Onward(s, UploadStep(s, k, a, remote))
  {
    hide Rewritten, Pinned, Serves, AcquirePc, RowOnward, FilesOnward, UpdateJob, RefSlug, RunEnabled, Transition;
    var t := UploadStep(s, k, a, remote);
    Unchanged(s.row, s.entered);
    match a {
      case ReuseIntent => FilesKept(s, t);
      case StartUpload(_, _) => FilesKept(s, t);
      case UploadReturned => FilesKept(s, t);
      case GiveUpUpload => FilesKept(s, t);
    }
  }

  lemma PinOnward(s: JobState, k: nat, r: Receipt)
    requires k in s.threads
    ensures Onward(s, PinStep(s, k, r))
  {
    hide RowOnward, FilesOnward, Pinned, RefSlug;
    Unchanged(s.row, s.entered);
    var t := PinStep(s, k, r);
    if CancelSeen(s.row) { FilesKept(s, t); } else { FilesKept(s, t); }
  }

  lemma QuietSubmitOnward(s: JobState, k: nat, a: RunAction, remote: Remote)
    requires k in s.threads && RunEnabled(s, k, a, remote) && (a.VerifyBytes? || a.RecordVerified? || a.PinVersion? || a.PushCall?)
    ensures Onward(s, SubmitStep(s, k, a, remote))
  {
    hide Rewritten, Pinned, Serves, AcquirePc, RowOnward, FilesOnward, UpdateJob, RefSlug, RunEnabled, Transition, PinStep;
    RunPlace(s, k, a, remote);
    var t := SubmitStep(s, k, a, remote);
    Unchanged(s.row, s.entered);
    match a {
      case VerifyBytes => FilesKept(s, t);
      case RecordVerified =>
        UpdateOnward(s.row, s.entered, Update(progress := Some(40), recheck := Some(NoRecheck), error := Some(NoError))); FilesKept(s, t);
      case PinVersion => PinOnward(s, k, s.threads[k].pc.receipt);
      case PushCall(_) => FilesKept(s, t);
    }
  }

  lemma SubmitOnward(s: JobState, k: nat, r: Receipt)
    requires k in s.threads
    ensures var t := Transition(s, k, {Queued, WaitingDataset}, PushingKernel, 45, Push(r));
      Onward(s, t.(entered := s.entered || t.threads[k].pc.Push?))
  {
    TransitionOnward(s, k, {Queued, WaitingDataset}, PushingKernel, 45, Push(r));
  }

  lemma SeenOpen(row: Row, entered: bool, pushed: bool, t: Thread)
    requires PlaceOk(row, entered, pushed, t) && t.pc.FinishWrite?
    ensures !Terminal(t.pc.seen)
  {
  }

  lemma MonitorOnward(s: JobState, k: nat, a: MonitorAction)
    requires k in s.threads && MonitorEnabled(s.threads[k], a)
    requires PlaceOk(s.row, s.entered, s.pushes != [], s.threads[k])
    ensures Onward(s, MonitorStep(s, k, a))
  {
    hide UpdateJob, Finalize, RowOnward, FilesOnward, PlaceOk, ReadRowStep, WriteRowStep, LostRow, Max;
    var pc, t := s.threads[k].pc, MonitorStep(s, k, a);
    match a {
      case ReadRow(target, floor) => ReadOnward(s, k, target, floor);
      case WriteRow => WriteOnward(s, k);
      case RecordOutput => UpdateOnward(s.row, s.entered, Update(progress := Some(Max(s.row.progress, 82)))); FilesKept(s, t);
      case Deliver => FinalizeOnward(s.row, s.entered, pc.final, Update(progress := Some(100), error := Some(NoError))); FilesKept(s, t);
      case LoseMonitor => LostOnward(s.row, s.entered); FilesKept(s, t);
    }
  }

  lemma ReadOnward(s: JobState, k: nat, target: Status, floor: int)
    requires k in s.threads && s.threads[k].pc.Finish?
    ensures Onward(s, ReadRowStep(s, k, target, floor))
  {
    hide RowOnward, FilesOnward, Max, CancelSeen;
    Unchanged(s.row, s.entered);
    if Terminal(s.row.status) { FilesKept(s, ReadRowStep(s, k, target, floor)); } else { FilesKept(s, ReadRowStep(s, k, target, floor)); }
  }

  lemma WriteOnward(s: JobState, k: nat)
    requires k in s.threads && s.threads[k].pc.FinishWrite? && PlaceOk(s.row, s.entered, s.pushes != [], s.threads[k])
    ensures Onward(s, WriteRowStep(s, k))
  {
    hide RowOnward, FilesOnward, MonitoredRow, PlaceOk;
    SeenOpen(s.row, s.entered, s.pushes != [], s.threads[k]);
    if s.row.status == s.threads[k].pc.seen {
      MonitoredOnward(s.row, s.entered, s.threads[k].pc);
      FilesKept(s, WriteRowStep(s, k));
    } else {
      Unchanged(s.row, s.entered);
      FilesKept(s, WriteRowStep(s, k));
    }
  }

  lemma MonitoredOnward(row: Row, entered: bool, pc: Pc)
    requires pc.FinishWrite? && !Terminal(row.status)
    ensures RowOnward(row, entered, MonitoredRow(row, pc), entered)
  {
    hide RowOnward, UpdateJob;
    UpdateOnward(row, entered, Update(status := Some(pc.next), progress := Some(pc.progress), error := if pc.phase == 0 then Some(NoError) else None));
  }

  lemma LostOnward(row: Row, entered: bool)
    ensures RowOnward(row, entered, LostRow(row), entered)
  {
    hide UpdateJob, RowOnward;
    Unchanged(row, entered);
    UpdateOnward(row, entered, Update(error := Some(KernelStatusUnknown)));
  }

  lemma Unchanged(row: Row, entered: bool)
    ensures RowOnward(row, entered, row, entered)
  {
  }

  lemma ErrorOnward(s: JobState, k: nat, a: ErrorAction)
    requires k in s.threads && ErrorEnabled(s, k, a)
    requires PlaceOk(s.row, s.entered, s.pushes != [], s.threads[k])
    ensures Onward(s, ErrorStep(s, k, a))
  {
    hide UpdateJob, Finalize, RowOnward, FilesOnward, UpdateIfStatus, Get, PlaceOk;
    Unchanged(s.row, s.entered);
    var t := ErrorStep(s, k, a);
    match a {
      case Raise => FilesKept(s, t);
      case NoticeCancel => FilesKept(s, t);
      case Interrupt => FilesKept(s, t);
      case Handle(_, _) => FilesKept(s, t);
      case Retain =>
        RetainOpen(s.row, s.entered, s.pushes != [], s.threads[k]);
        UpdateOnward(s.row, s.entered, Update(status := Some(WaitingDataset), error := Some(RetainedCandidate)));
        FilesKept(s, t);
      case Schedule(r) => PlannedOnward(s.row, s.entered, r); FilesKept(s, t);
      case Fail => FinalizeOnward(s.row, s.entered, Failed, Update(progress := Some(0), error := Some(OtherError))); FilesKept(s, t);
      case Cancel => FinalizeOnward(s.row, s.entered, Canceled, Update(error := Some(OtherError))); FilesKept(s, t);
    }
  }

  lemma RetainOpen(row: Row, entered: bool, pushed: bool, t: Thread)
    requires PlaceOk(row, entered, pushed, t) && t.pc.RetainWrite?
    ensures !Terminal(row.status)
  {
  }

  lemma PlannedOnward(row: Row, entered: bool, r: Recheck)
    ensures RowOnward(row, entered, UpdateIfStatus(row, {WaitingDataset}, true, Update(recheck := Some(r))), entered)
  {
    hide UpdateJob, RowOnward;
    Unchanged(row, entered);
    UpdateOnward(row, entered, Update(recheck := Some(r)));
  }

  lemma ChildOnward(s: JobState, c: nat, a: ChildAction)
    requires c in s.children && ChildEnabled(s, c, a) && ChildOk(s, c)
    requires Files(s.row.datasetRef, s.view, s.disk, s.calls)
    ensures Onward(s, ChildStep(s, c, a))
  {
    hide RowOnward;
    Unchanged(s.row, s.entered);
    match a {
      case Rename => assert FilesOnward(s, ChildStep(s, c, a));
      case SyncIntent => assert FilesOnward(s, ChildStep(s, c, a));
      case RemoteCall => assert FilesOnward(s, ChildStep(s, c, a));
      case Respond(_) => assert FilesOnward(s, ChildStep(s, c, a));
      case SyncOutcome => assert FilesOnward(s, ChildStep(s, c, a));
    }
  }

  lemma IntakeOnward(s: JobState, a: IntakeAction)
    requires Fresh(s) && IntakeEnabled(s, a)
    ensures Onward(s, IntakeStep(s, a))
  {
    hide RewriteOwner, UpdateJob, UpdateIfStatus, Deduct, RowOnward;
    match a {
      case StartAssembly => UpdateOnward(s.row, s.entered, Update(status := Some(Assembling), progress := Some(10)));
      case Reserve(n) => UpdateOnward(s.row, s.entered, Update(reserved := Some(n)));
      case Consume(n) => DeductOnward(s.row, s.entered, n);
      case AssemblyDone(_, _) => AssembledOnward(s.row, s.entered, Update(status := Some(Queued), progress := Some(15), error := Some(NoError)));
      case AssemblyFull => AssembledOnward(s.row, s.entered, Update(status := Some(Receiving), error := Some(OtherError)));
      case AssemblyFailed => AssembledOnward(s.row, s.entered, Update(status := Some(Failed), progress := Some(0), error := Some(OtherError)));
      case CommitChunk(n) => DeductOnward(s.row, s.entered, n);
      case ExpireUpload => UpdateOnward(s.row, s.entered, Update(status := Some(Failed), error := Some(OtherError)));
      case Bind(owner) => BindOnward(s.row, s.entered, RewriteOwner(s.row.datasetRef, owner));
      case RejectBinding => UpdateOnward(s.row, s.entered, Update(status := Some(Failed), error := Some(OtherError)));
    }
  }

  lemma ServerKeepsFiles(s: JobState, a: ServerAction)
    requires ServerEnabled(s, a)
    ensures FilesOnward(s, ServerStep(s, a))
  {
    hide FilesOnward, ServerStep, ServerEnabled;
    match a {
      case Dequeue(item, k) => DequeueKeeps(s, item, k);
      case SkipItem(item) => SkipKeeps(s, item);
      case Supersede(item) => SupersedeKeeps(s, item);
      case RequestCancel => CancelKeeps(s);
      case Callback(target, p) => CallbackKeeps(s, target, p);
      case ResumeMonitoring => ResumeKeeps(s);
      case ManualRecheck(restart) => RecheckKeeps(s, a);
      case ClaimRecheck => RecheckKeeps(s, a);
      case PlanRecheck(r) => PlanKeeps(s, r);
      case ChangeLocal(content) => LocalKeeps(s, content);
    }
    FilesKept(s, ServerStep(s, a));
  }

  lemma DequeueKeeps(s: JobState, item: Item, k: nat)
    requires ServerEnabled(s, Dequeue(item, k))
    ensures var t := ServerStep(s, Dequeue(item, k)); t.calls == s.calls && t.pushes == s.pushes && t.disk == s.disk
  {
    hide ServerEnabled, UpdateJob, UpdateIfStatus, CancelUpdate, Requeue;
  }

  lemma SkipKeeps(s: JobState, item: Item)
    requires ServerEnabled(s, SkipItem(item))
    ensures var t := ServerStep(s, SkipItem(item)); t.calls == s.calls && t.pushes == s.pushes && t.disk == s.disk
  {
    hide ServerEnabled, UpdateJob, UpdateIfStatus, CancelUpdate, Requeue;
  }

  lemma SupersedeKeeps(s: JobState, item: Item)
    requires ServerEnabled(s, Supersede(item))
    ensures var t := ServerStep(s, Supersede(item)); t.calls == s.calls && t.pushes == s.pushes && t.disk == s.disk
  {
    hide ServerEnabled, UpdateJob, UpdateIfStatus, CancelUpdate, Requeue;
  }

  lemma CancelKeeps(s: JobState)
    requires ServerEnabled(s, RequestCancel)
    ensures var t := ServerStep(s, RequestCancel); t.calls == s.calls && t.pushes == s.pushes && t.disk == s.disk
  {
    hide ServerEnabled, UpdateJob, UpdateIfStatus, CancelUpdate, Requeue;
  }

  lemma CallbackKeeps(s: JobState, target: Status, p: int)
    requires ServerEnabled(s, Callback(target, p))
    ensures var t := ServerStep(s, Callback(target, p)); t.calls == s.calls && t.pushes == s.pushes && t.disk == s.disk
  {
    hide ServerEnabled, UpdateJob, UpdateIfStatus, CancelUpdate, Requeue;
  }

  lemma ResumeKeeps(s: JobState)
    requires ServerEnabled(s, ResumeMonitoring)
    ensures var t := ServerStep(s, ResumeMonitoring); t.calls == s.calls && t.pushes == s.pushes && t.disk == s.disk
  {
    hide ServerEnabled, UpdateJob, UpdateIfStatus, CancelUpdate, Requeue;
  }

  lemma PlanKeeps(s: JobState, r: Recheck)
    requires ServerEnabled(s, PlanRecheck(r))
    ensures var t := ServerStep(s, PlanRecheck(r)); t.calls == s.calls && t.pushes == s.pushes && t.disk == s.disk
  {
    hide ServerEnabled, UpdateJob, UpdateIfStatus, CancelUpdate, Requeue;
  }

  lemma LocalKeeps(s: JobState, content: Content)
    requires ServerEnabled(s, ChangeLocal(content))
    ensures var t := ServerStep(s, ChangeLocal(content)); t.calls == s.calls && t.pushes == s.pushes && t.disk == s.disk
  {
    hide ServerEnabled, UpdateJob, UpdateIfStatus, CancelUpdate, Requeue;
  }

  lemma RecheckKeeps(s: JobState, a: ServerAction)
    requires ServerEnabled(s, a) && (a.ManualRecheck? || a.ClaimRecheck?)
    ensures var t := ServerStep(s, a); t.calls == s.calls && t.pushes == s.pushes && t.disk == s.disk
  {
    hide ServerEnabled, Requeue;
    assert ServerStep(s, a) == Requeue(s);
  }

  lemma ServerOnward(s: JobState, a: ServerAction)
    requires ServerEnabled(s, a)
    ensures Onward(s, ServerStep(s, a))
  {
    hide UpdateJob, RowOnward, FilesOnward;
    Unchanged(s.row, s.entered);
    ServerKeepsFiles(s, a);
    match a {
      case RequestCancel => UpdateOnward(s.row, s.entered, CancelUpdate(s.row.status));
      case Callback(target, p) => CallbackOnward(s.row, s.entered, target, p);
      case ResumeMonitoring => UpdateOnward(s.row, s.entered, Update(error := Some(NoError)));
      case ManualRecheck(_) => UpdateOnward(s.row, s.entered, Update(status := Some(Queued), error := Some(NoError), recheck := Some(Checking)));
      case ClaimRecheck => UpdateOnward(s.row, s.entered, Update(status := Some(Queued), error := Some(NoError), recheck := Some(Checking)));
      case PlanRecheck(r) => UpdateOnward(s.row, s.entered, Update(recheck := Some(r)));
      case _ =>
    }
  }

  lemma DeductOnward(row: Row, entered: bool, n: nat)
    ensures RowOnward(row, entered, Deduct(row, n), entered)
  {
  }

  lemma AssembledOnward(row: Row, entered: bool, u: Update)
    requires u.cancelRequested != Some(false) && u.pending != Some(true) && u.datasetRef.None?
    ensures RowOnward(row, entered, UpdateIfStatus(row, {Assembling}, false, u), entered)
  {
  }

  lemma CallbackOnward(row: Row, entered: bool, target: Status, progress: int)
    requires Terminal(row.status) ==> target == row.status
    ensures RowOnward(row, entered, row.(status := target, progress := progress), entered)
  {
  }

  lemma BindOnward(row: Row, entered: bool, ref: Option<string>)
    requires AwaitingAssignment(row)
    ensures RowOnward(row, entered, UpdateJob(row, Update(pending := Some(false), datasetRef := ref)), entered)
  {
  }

  lemma CrashOnward(s: JobState, kind: CrashKind)
    ensures Onward(s, CrashStep(s, kind))
  {
  }

  lemma RecoverKeepsFiles(s: JobState, o: Observed)
    requires s.recovering
    ensures FilesOnward(s, RecoverStep(s, o))
  {
    hide UpdateJob, FilesOnward, RunItem, RecoverFail, RecoverEnqueue, RecoverCandidate, RecoverCancel, RecoverAssembly;
    var t := RecoverStep(s, o);
    match s.row.status {
      case Queued => FilesKept(s, t);
      case WaitingKernel => FilesKept(s, t);
      case DownloadingOutput => FilesKept(s, t);
      case CancelRequested => FilesKept(s, t);
      case PushingKernel => FilesKept(s, t);
      case UploadingDataset => FilesKept(s, t);
      case WaitingDataset => FilesKept(s, t);
      case Assembling => FilesKept(s, t);
      case _ => FilesKept(s, t);
    }
  }

  lemma RecoverOnward(s: JobState, o: Observed)
    requires s.recovering && !Terminal(s.row.status)
    ensures Onward(s, RecoverStep(s, o))
  {
    hide RowOnward, FilesOnward, RecoverCandidate, RecoverCancel, RecoverAssembly, RecoverFail, RecoverEnqueue, RunItem, Terminal;
    Unchanged(s.row, s.entered);
    RecoverKeepsFiles(s, o);
    var u := s.(recovering := false);
    match s.row.status {
      case CancelRequested => CancelOnward(u, o);
      case PushingKernel => FailOnward(u);
      case UploadingDataset => CandidateOnward(u, o);
      case WaitingDataset => CandidateOnward(u, o);
      case Assembling => AssemblyOnward(u, o);
      case _ =>
    }
  }

  lemma FailOnward(s: JobState)
    requires !Terminal(s.row.status)
    ensures RowOnward(s.row, s.entered, RecoverFail(s).row, s.entered)
  {
    hide UpdateJob, RowOnward;
    UpdateOnward(s.row, s.entered, Update(status := Some(Failed), progress := Some(0), error := Some(OtherError)));
  }

  lemma CancelOnward(s: JobState, o: Observed)
    requires !Terminal(s.row.status)
    ensures RowOnward(s.row, s.entered, RecoverCancel(s, o).row, s.entered)
  {
    hide UpdateJob, RowOnward, RecoverFail, RecoverEnqueue;
    Unchanged(s.row, s.entered);
    FailOnward(s);
    UpdateOnward(s.row, s.entered, Update(status := Some(Canceled), error := Some(OtherError)));
  }

  lemma AssemblyOnward(s: JobState, o: Observed)
    requires !Terminal(s.row.status)
    ensures RowOnward(s.row, s.entered, RecoverAssembly(s, o).row, s.entered)
  {
    hide UpdateJob, RowOnward, RecoverFail, RecoverEnqueue;
    FailOnward(s);
    UpdateOnward(s.row, s.entered, Update(status := Some(Queued), progress := Some(15), error := Some(NoError), reserved := Some(o.reserved)));
  }

  lemma CandidateOnward(s: JobState, o: Observed)
    requires !Terminal(s.row.status)
    ensures var t := RecoverCandidate(s, o); RowOnward(s.row, s.entered, t.row, t.entered)
  {
    hide UpdateJob, RowOnward;
    Unchanged(s.row, s.entered);
    UpdateOnward(s.row, s.entered, Update(status := Some(Failed), progress := Some(0), error := Some(OtherError)));
    UpdateOnward(s.row, s.entered, Update(status := Some(Queued), error := Some(NoError)));
  }

  lemma Facts(s: JobState, remote: Remote)
    requires Inv(s, remote)
    ensures Fresh(s) && Files(s.row.datasetRef, s.view, s.disk, s.calls)
    ensures s.recovering ==> !Terminal(s.row.status)
    ensures forall k :: k in s.threads ==> PlaceOk(s.row, s.entered, s.pushes != [], s.threads[k])
    ensures forall c :: c in s.children ==> ChildOk(s, c)
  {
    hide Fresh, Files, PlaceOk, ReceiptOk, ChildOk, Attended;
    forall k | k in s.threads ensures PlaceOk(s.row, s.entered, s.pushes != [], s.threads[k]) {
      assert ThreadOk(s, s.threads[k], remote);
    }
  }

  lemma StepOnward(s: JobState, a: Action, remote: Remote)
    requires Inv(s, remote) && Enabled(s, a, remote)
    ensures Onward(s, Step(s, a, remote))
  {
    hide Inv, Onward, Fresh, Files, PlaceOk, ChildOk, RunStep, MonitorStep, ErrorStep, ChildStep, IntakeStep, ServerStep, CrashStep, RecoverStep;
    Facts(s, remote);
    match a {
      case Run(k, r) => RunOnward(s, k, r, remote);
      case Monitor(k, m) => MonitorOnward(s, k, m);
      case Err(k, e) => ErrorOnward(s, k, e);
      case Upload(c, u) => ChildOnward(s, c, u);
      case Intake(i) => IntakeOnward(s, i);
      case Server(r) => ServerOnward(s, r);
      case Crash(kind) => CrashOnward(s, kind);
      case Recover(o) => RecoverOnward(s, o);
    }
  }
}
