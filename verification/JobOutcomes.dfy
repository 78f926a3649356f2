/** How jobs end and whether queued work is always carried by someone. */
module JobOutcomes {
  import opened Options
  import opened Database
  import opened KaggleRefs
  import opened JobProtocol
  import opened JobInvariants
  import opened JobOnward
  import opened RelayRuns

  // ---- cancellation ----

  /** The two cases in which restart recovery deliberately ends a canceled job as failed: the kernel may be
      running but could not be looked up, or the candidate of an interrupted recheck has no usable intent. */
  predicate FailsCanceled(s: JobState, o: Observed) {
    var row, i := s.row, Get(s.view, s.row.datasetRef);
    || (row.status.CancelRequested? && 45 <= row.progress < 60 && !o.pushLogged && o.probe == ProbeError)
    || (row.status.WaitingDataset? && row.recheck == Checking && (!o.readable || i.None? || i.value.state == Rejected))
  }

  /** Restart ends a canceled job as failed in exactly those cases, and never as complete. */
  lemma RecoveryOfCanceled(s: JobState, o: Observed, remote: Remote)
    requires Inv(s, remote) && s.recovering && CancelSeen(s.row)
    ensures var r := RecoverStep(s, o).row;
      (r.status.Failed? <==> FailsCanceled(s, o)) && !r.status.Complete?
  {
    hide Fresh, Files, Children, Threads, History;
    CanceledPlaces(s, remote);
    match s.row.status {
      case CancelRequested => CanceledRecovery(s.(recovering := false), o);
      case WaitingDataset => CandidateRecovery(s.(recovering := false), o);
      case _ =>
    }
  }

  lemma CanceledPlaces(s: JobState, remote: Remote)
    requires Inv(s, remote) && s.recovering && CancelSeen(s.row)
    ensures s.row.status.CancelRequested? || s.row.status.WaitingDataset? || s.row.status.WaitingKernel? || s.row.status.DownloadingOutput?
  {
    hide Fresh, Files, Children, Threads, History;
  }

  lemma FailedRow(s: JobState)
    ensures RecoverFail(s).row.status.Failed?
  {
  }

  lemma CanceledStatus(row: Row)
    ensures UpdateJob(row, Update(status := Some(Canceled), error := Some(OtherError))).status.Canceled?
  {
  }

  /** The row that recovery leaves of a job whose status is cancel_requested. */
  lemma CanceledRow(s: JobState, o: Observed)
    ensures var r, p := RecoverCancel(s, o).row, s.row.progress;
      if p >= 60 || o.pushLogged || (p >= 45 && o.probe == Visible) then r == s.row
      else if p >= 45 && o.probe == ProbeError then r.status.Failed?
      else r.status.Canceled?
  {
    hide RecoverEnqueue, RecoverFail, UpdateJob;
    FailedRow(s);
    CanceledStatus(s.row);
  }

  lemma CanceledRecovery(s: JobState, o: Observed)
    requires s.row.status.CancelRequested?
    ensures RecoverCancel(s, o).row.status.Failed? <==> FailsCanceled(s, o)
    ensures !RecoverCancel(s, o).row.status.Complete?
  {
    hide RecoverCancel, Get;
    CanceledRow(s, o);
  }

  lemma CandidateRecovery(s: JobState, o: Observed)
    requires s.row.status.WaitingDataset?
    ensures RecoverCandidate(s, o).row.status.Failed? <==>
              !o.readable || s.row.datasetRef !in s.view || s.view[s.row.datasetRef].state == Rejected
    ensures !RecoverCandidate(s, o).row.status.Complete?
  {
    hide RecoverEnqueue, RecoverFail;
    FailedRow(s);
  }

  /** Apart from restart recovery, whatever step ends a job after its cancellation was recorded ends it as canceled. */
  lemma CancelWins(s: JobState, a: Action, remote: Remote)
    requires Inv(s, remote) && Enabled(s, a, remote) && !a.Recover?
    requires s.row.cancelRequested && !Terminal(s.row.status) && Terminal(Step(s, a, remote).row.status)
    ensures Step(s, a, remote).row.status.Canceled?
  {
    hide RunStep, MonitorStep, ErrorStep, ChildStep, IntakeStep, ServerStep, CrashStep, Fresh, Files, Children, Threads, History;
    match a {
      case Run(k, r) => RunNeverEnds(s, k, r, remote);
      case Monitor(k, m) => MonitorEnds(s, k, m, remote);
      case Err(k, e) => ErrorEnds(s, k, e);
      case Upload(c, u) => ChildKeepsRow(s, c, u);
      case Intake(i) => NoIntakeAfterCancel(s, i, remote);
      case Server(r) => ServerEnds(s, r);
      case Crash(kind) => CrashKeepsRow(s, kind);
    }
  }

  lemma CrashKeepsRow(s: JobState, kind: CrashKind)
    ensures CrashStep(s, kind).row == s.row
  {
  }

  lemma ChildKeepsRow(s: JobState, c: nat, a: ChildAction)
    requires c in s.children && ChildEnabled(s, c, a)
    ensures ChildStep(s, c, a).row == s.row
  {
  }

  lemma TransitionOpen(s: JobState, k: nat, expected: set<Status>, status: Status, progress: int, next: Pc)
    requires k in s.threads && !Terminal(s.row.status) && !Terminal(status)
    ensures !Terminal(Transition(s, k, expected, status, progress, next).row.status)
  {
    hide Matches, CancelSeen, Terminal;
    var t := Transition(s, k, expected, status, progress, next);
    if Matches(s.row, expected, true) { assert t.row.status == status; } else { assert t.row == s.row; }
  }

  lemma PinKeepsRow(s: JobState, k: nat, r: Receipt)
    requires k in s.threads
    ensures PinStep(s, k, r).row == s.row
  {
    hide Pinned, CancelSeen;
    if CancelSeen(s.row) {
      assert PinStep(s, k, r) == At(s, k, CancelWrite);
    } else {
      assert PinStep(s, k, r) == At(s.(sources := Pinned(s.sources, s.row.datasetRef, r.version)), k, Ready(r));
    }
  }

  lemma RunNeverEnds(s: JobState, k: nat, a: RunAction, remote: Remote)
    requires k in s.threads && RunEnabled(s, k, a, remote) && !Terminal(s.row.status)
    ensures !Terminal(RunStep(s, k, a, remote).row.status)
  {
    hide Serves, Pinned, Rewritten, AcquirePc, CancelSeen, Transition, Terminal, PinStep;
    var t, pc := RunStep(s, k, a, remote), s.threads[k].pc;
    match a {
      case Prepare =>
        assert !Terminal(WaitingDataset) && !Terminal(UploadingDataset) by { OpenStatuses(); }
        if pc.saved.Some? { TransitionOpen(s, k, {Queued}, WaitingDataset, 35, Verify(pc.saved.value)); }
        else { TransitionOpen(s, k, {Queued, UploadingDataset, WaitingDataset}, UploadingDataset, 20, Uploading); }
      case AfterUpload =>
        OpenStatuses();
        TransitionOpen(s, k, {UploadingDataset}, WaitingDataset, 35, Verify(pc.receipt));
      case Submit =>
        OpenStatuses();
        TransitionOpen(s, k, {Queued, WaitingDataset}, PushingKernel, 45, Push(pc.receipt));
      case PinVersion => PinKeepsRow(s, k, pc.receipt);
      case _ => assert t.row.status == s.row.status;
    }
  }

  lemma OpenStatuses()
    ensures !Terminal(WaitingDataset) && !Terminal(UploadingDataset) && !Terminal(PushingKernel)
  {
  }

  lemma FinalizedCanceled(row: Row, preferred: Status, u: Update)
    requires row.cancelRequested && !Terminal(row.status)
    ensures Finalize(row, preferred, u).status == Canceled
  {
  }

  /** A monitoring step leaves the row open or delivers, and delivery honours the cancellation. */
  lemma MonitorEnds(s: JobState, k: nat, a: MonitorAction, remote: Remote)
    requires Inv(s, remote) && k in s.threads && MonitorEnabled(s.threads[k], a) && s.row.cancelRequested && !Terminal(s.row.status)
    ensures Terminal(MonitorStep(s, k, a).row.status) ==> MonitorStep(s, k, a).row.status.Canceled?
  {
    hide Inv, ReceiptOk, RowOk, Finalize, ReadRowStep, WriteRowStep, UpdateJob, PlaceOk;
    ThreadFacts(s, k, remote);
    var pc := s.threads[k].pc;
    match a {
      case ReadRow(target, floor) => ReadKeepsRow(s, k, target, floor);
      case WriteRow => WriteStaysOpen(s, k);
      case RecordOutput => KeepsStatus(s.row, Update(progress := Some(Max(s.row.progress, 82))));
      case Deliver => FinalizedCanceled(s.row, pc.final, Update(progress := Some(100), error := Some(NoError)));
      case LoseMonitor => KeepsStatus(s.row, Update(error := Some(KernelStatusUnknown)));
    }
  }

  lemma KeepsStatus(row: Row, u: Update)
    requires u.status.None?
    ensures UpdateJob(row, u).status == row.status
  {
  }

  lemma ReadKeepsRow(s: JobState, k: nat, target: Status, floor: int)
    requires k in s.threads && s.threads[k].pc.Finish?
    ensures ReadRowStep(s, k, target, floor).row == s.row
  {
    hide CancelSeen, Max;
    if Terminal(s.row.status) { assert ReadRowStep(s, k, target, floor).row == s.row; } else { assert ReadRowStep(s, k, target, floor).row == s.row; }
  }

  lemma WriteStaysOpen(s: JobState, k: nat)
    requires k in s.threads && s.threads[k].pc.FinishWrite? && PlaceOk(s.row, s.entered, s.pushes != [], s.threads[k]) && !Terminal(s.row.status)
    ensures !Terminal(WriteRowStep(s, k).row.status)
  {
    hide MonitoredRow, Terminal;
    MonitoredOpen(s.row, s.entered, s.pushes != [], s.threads[k]);
    if s.row.status == s.threads[k].pc.seen {
      assert WriteRowStep(s, k).row == MonitoredRow(s.row, s.threads[k].pc);
    } else {
      assert WriteRowStep(s, k).row == s.row;
    }
  }

  lemma MonitoredOpen(row: Row, entered: bool, pushed: bool, t: Thread)
    requires PlaceOk(row, entered, pushed, t) && t.pc.FinishWrite?
    ensures !Terminal(MonitoredRow(row, t.pc).status)
  {
  }

  lemma ErrorEnds(s: JobState, k: nat, a: ErrorAction)
    requires k in s.threads && ErrorEnabled(s, k, a) && s.row.cancelRequested && !Terminal(s.row.status)
    ensures Terminal(ErrorStep(s, k, a).row.status) ==> ErrorStep(s, k, a).row.status.Canceled?
  {
    hide Get, Finalize, CancelSeen, Matches, UpdateJob;
    match a {
      case Retain => RetainsWaiting(s.row);
      case Schedule(r) => KeepsStatus(s.row, Update(recheck := Some(r)));
      case Fail => FinalizedCanceled(s.row, Failed, Update(progress := Some(0), error := Some(OtherError)));
      case Cancel => FinalizedCanceled(s.row, Canceled, Update(error := Some(OtherError)));
      case _ =>
    }
  }

  lemma RetainsWaiting(row: Row)
    ensures UpdateJob(row, Update(status := Some(WaitingDataset), error := Some(RetainedCandidate))).status.WaitingDataset?
  {
  }

  /** Nothing of a job's intake can follow its cancellation. */
  lemma NoIntakeAfterCancel(s: JobState, a: IntakeAction, remote: Remote)
    requires Inv(s, remote) && IntakeEnabled(s, a) && !Terminal(s.row.status)
    ensures !s.row.cancelRequested
  {
    hide Exclusive, Files, Children, Threads, History, Untouched, RewriteOwner;
  }

  lemma ServerEnds(s: JobState, a: ServerAction)
    requires ServerEnabled(s, a) && s.row.cancelRequested && !Terminal(s.row.status)
    ensures Terminal(ServerStep(s, a).row.status) ==> ServerStep(s, a).row.status.Canceled?
  {
    hide AwaitingAssignment, Retainable;
  }

  predicate RecoversAt(ws: seq<World>, es: seq<Event>, j: JobId, b: nat)
    requires |ws| == |es| + 1
  {
    && b < |es| && es[b].Act? && es[b].job == j && es[b].action.Recover? && j in ws[b].jobs
    && FailsCanceled(ws[b].jobs[j], es[b].action.seen)
  }

  /** In every run, a job whose cancellation was recorded while it was open ends as canceled, or as failed
      at a restart that found one of the two conditions above. */
  lemma {:induction false} CanceledJobsEnd(ws: seq<World>, es: seq<Event>, j: JobId, i: nat, k: nat)
    requires Execution(ws, es) && i <= k < |ws| && j in ws[i].jobs
    requires ws[i].jobs[j].row.cancelRequested && !Terminal(ws[i].jobs[j].row.status)
    ensures j in ws[k].jobs && ws[k].jobs[j].row.cancelRequested
    ensures Terminal(ws[k].jobs[j].row.status) ==>
              || ws[k].jobs[j].row.status.Canceled?
              || (ws[k].jobs[j].row.status.Failed? && exists b :: i <= b < k && RecoversAt(ws, es, j, b))
    decreases k - i
  {
    hide Inv, Next, Possible, Step, Enabled, FailsCanceled, FilesOnward;
    AlwaysOnward(ws, es, j, i, k);
    if i < k {
      CanceledJobsEnd(ws, es, j, i, k - 1);
      AlwaysHealthy(ws, es, k - 1);
      var w, e := ws[k - 1], es[k - 1];
      var s := w.jobs[j];
      AlwaysOnward(ws, es, j, k - 1, k);
      NextJob(w, e, j);
      if !Terminal(s.row.status) && Terminal(ws[k].jobs[j].row.status) {
        var a := JobAction(j, e).value;
        if a.Recover? {
          RecoverEnabled(s, a, w.remote);
          RecoveryOfCanceled(s, a.seen, w.remote);
          assert FailsCanceled(s, a.seen) ==> RecoversAt(ws, es, j, k - 1);
        } else {
          CancelWins(s, a, w.remote);
        }
      }
    }
  }

  lemma RecoverEnabled(s: JobState, a: Action, remote: Remote)
    requires Enabled(s, a, remote) && a.Recover?
    ensures s.recovering && Step(s, a, remote) == RecoverStep(s, a.seen)
  {
    hide RecoverStep;
  }

  // ---- canceled jobs that stay ----

  /** Canceled, retained by the failure handler after that, and left by its worker. */
  predicate LeftWaiting(s: JobState) {
    s.row.status.WaitingDataset? && s.row.cancelRequested && s.threads == map[] && s.row.recheck != Checking
  }

  /** Such a job is left by no step at all, crashes and restarts included, except another cancel request or a progress
      callback: rechecks refuse a canceled job, and recovery keeps a retained candidate. */
  lemma LeftWaitingStays(s: JobState, a: Action, remote: Remote)
    requires Inv(s, remote) && Enabled(s, a, remote) && LeftWaiting(s)
    ensures LeftWaiting(Step(s, a, remote)) || (a.Server? && (a.request.RequestCancel? || a.request.Callback?))
  {
    hide Exclusive, Files, Children, Threads, History, RunStep, MonitorStep, ErrorStep, ChildStep, IntakeStep, ServerStep, CrashStep, RecoverStep;
    match a {
      case Upload(c, u) => ChildKeepsThreads(s, c, u);
      case Intake(i) => assert false;
      case Server(r) => if !r.RequestCancel? && !r.Callback? { ServerLeaves(s, r); }
      case Crash(kind) => CrashLeaves(s, kind);
      case Recover(o) => RecoverLeaves(s, o, remote);
      case _ =>
    }
  }

  lemma ChildKeepsThreads(s: JobState, c: nat, a: ChildAction)
    requires c in s.children && ChildEnabled(s, c, a)
    ensures ChildStep(s, c, a).row == s.row && ChildStep(s, c, a).threads == s.threads
  {
  }

  lemma ServerLeaves(s: JobState, a: ServerAction)
    requires ServerEnabled(s, a) && LeftWaiting(s) && !a.RequestCancel? && !a.Callback?
    ensures LeftWaiting(ServerStep(s, a))
  {
    hide Retainable, AwaitingAssignment;
  }

  lemma CrashLeaves(s: JobState, kind: CrashKind)
    requires LeftWaiting(s)
    ensures LeftWaiting(CrashStep(s, kind))
  {
  }

  lemma RecoverLeaves(s: JobState, o: Observed, remote: Remote)
    requires Inv(s, remote) && s.recovering && LeftWaiting(s)
    ensures LeftWaiting(RecoverStep(s, o))
  {
    hide Exclusive, Fresh, Files, Children, Threads, History, RecoverCandidate;
  }

  predicate Disturbs(e: Event, j: JobId) {
    e.Act? && e.job == j && e.action.Server? && (e.action.request.RequestCancel? || e.action.request.Callback?)
  }

  /** So in every run without those two requests it waits for ever. */
  lemma {:induction false} LeftWaitingForEver(ws: seq<World>, es: seq<Event>, j: JobId, i: nat, k: nat)
    requires Execution(ws, es) && i <= k < |ws| && j in ws[i].jobs && LeftWaiting(ws[i].jobs[j])
    requires forall m :: i <= m < k ==> !Disturbs(es[m], j)
    ensures j in ws[k].jobs && LeftWaiting(ws[k].jobs[j])
    decreases k - i
  {
    hide Inv, Next, Possible, Step, Enabled, LeftWaiting;
    if i < k {
      LeftWaitingForEver(ws, es, j, i, k - 1);
      AlwaysHealthy(ws, es, k - 1);
      NextJob(ws[k - 1], es[k - 1], j);
      if JobAction(j, es[k - 1]).Some? {
        LeftWaitingStays(ws[k - 1].jobs[j], JobAction(j, es[k - 1]).value, ws[k - 1].remote);
      }
    }
  }
}
