/** How jobs end, who queues them, and what a cancellation request does, in every execution. */
module JobEndings {
  import opened Options
  import opened Database
  import opened KaggleRefs
  import opened JobProtocol
  import opened JobInvariants
  import opened JobOnward
  import opened RelayRuns
  import opened JobDecisions
  import Outcomes = JobOutcomes

  // ---- nothing is canceled unasked ----

  /** What a monitoring run will write: its final status, and its decision while it is about to write a row. */
  predicate MonitorAsked(row: Row, pc: Pc) {
    && (pc.Finish? || pc.FinishWrite? ==> pc.final == Complete || (pc.final == Canceled && row.cancelRequested))
    && (pc.FinishWrite? ==>
          && (pc.next == WaitingKernel || pc.next == DownloadingOutput || pc.next == CancelRequested)
          && (pc.next == CancelRequested ==> row.cancelRequested)
          && (pc.seen == CancelRequested || (row.cancelRequested && row.status == pc.seen) ==> pc.next == CancelRequested))
    && (pc.CancelWrite? ==> row.cancelRequested)
  }

  predicate Asked(s: JobState) {
    && (s.row.status == CancelRequested || s.row.status == Canceled ==> s.row.cancelRequested)
    && (forall f :: ResumeItem(f) in s.queue ==> f == Complete || (f == Canceled && s.row.cancelRequested))
    && (forall k :: k in s.threads ==> MonitorAsked(s.row, s.threads[k].pc))
  }

  lemma ThreadAsked(s: JobState, k: nat)
    requires Asked(s) && k in s.threads
    ensures MonitorAsked(s.row, s.threads[k].pc)
  {
    hide MonitorAsked;
  }

  lemma AskedStep(s: JobState, a: Action, remote: Remote)
    requires Inv(s, remote) && Enabled(s, a, remote) && Asked(s)
    ensures Asked(Step(s, a, remote))
  {
    hide Inv, Asked, RunStep, MonitorStep, ErrorStep, ChildStep, IntakeStep, ServerStep, CrashStep, RecoverStep;
    match a {
      case Run(k, r) => RunAsked(s, k, r, remote);
      case Monitor(k, m) => MonitorAskedStep(s, k, m, remote);
      case Err(k, e) => ErrorAsked(s, k, e, remote);
      case Upload(c, u) => ChildAsked(s, c, u);
      case Intake(i) => IntakeAsked(s, i, remote);
      case Server(q) => ServerAsked(s, q, remote);
      case Crash(kind) => CrashAsked(s, kind);
      case Recover(o) => RecoverAsked(s, o, remote);
    }
  }

  /** Thread k goes to a point before monitoring or into the handler; the row may be written, but not canceled. */
  lemma QuietAsked(s: JobState, t: JobState, k: nat, pc: Pc)
    requires Asked(s) && k in s.threads && t.threads == s.threads[k := s.threads[k].(pc := pc)] && t.queue == s.queue
    requires t.row.cancelRequested == s.row.cancelRequested && (forall q :: q in s.threads ==> q == k)
    requires t.row.status == s.row.status || (t.row.status != CancelRequested && t.row.status != Canceled)
    requires MonitorAsked(t.row, pc)
    ensures Asked(t)
  {
  }

  lemma OnlyThread(s: JobState, k: nat, remote: Remote)
    requires Inv(s, remote) && k in s.threads
    ensures forall q :: q in s.threads ==> q == k
  {
    hide Fresh, RowOk, Files, Children, Threads, History;
  }

  lemma SeenAsked(s: JobState)
    requires Asked(s)
    ensures CancelSeen(s.row) <==> s.row.cancelRequested
  {
  }

  lemma QuietPlaces(row: Row, pc: Pc)
    requires !pc.Finish? && !pc.FinishWrite? && (pc.CancelWrite? ==> row.cancelRequested)
    ensures MonitorAsked(row, pc)
  {
  }

  lemma TransitionAsked(s: JobState, k: nat, expected: set<Status>, status: Status, progress: int, next: Pc, remote: Remote)
    requires Inv(s, remote) && Asked(s) && k in s.threads && status != CancelRequested && status != Canceled
    requires !next.Finish? && !next.FinishWrite? && !next.CancelWrite?
    ensures Asked(Transition(s, k, expected, status, progress, next))
  {
    hide Inv, Asked, Transition;
    OnlyThread(s, k, remote);
    SeenAsked(s);
    if Matches(s.row, expected, true) { TransitionMade(s, k, expected, status, progress, next); }
    else { TransitionRefused(s, k, expected, status, progress, next); }
  }

  lemma TransitionMade(s: JobState, k: nat, expected: set<Status>, status: Status, progress: int, next: Pc)
    requires Asked(s) && k in s.threads && (forall q :: q in s.threads ==> q == k) && status != CancelRequested && status != Canceled
    requires !next.Finish? && !next.FinishWrite? && !next.CancelWrite? && Matches(s.row, expected, true)
    ensures Asked(Transition(s, k, expected, status, progress, next))
  {
    hide Asked, CancelSeen, Matches, MonitorAsked;
    var row := UpdateJob(s.row, Update(status := Some(status), progress := Some(progress)));
    QuietPlaces(row, next);
    QuietAsked(s, Transition(s, k, expected, status, progress, next), k, next);
  }

  lemma TransitionRefused(s: JobState, k: nat, expected: set<Status>, status: Status, progress: int, next: Pc)
    requires Asked(s) && k in s.threads && (forall q :: q in s.threads ==> q == k) && !Matches(s.row, expected, true)
    requires CancelSeen(s.row) <==> s.row.cancelRequested
    ensures Asked(Transition(s, k, expected, status, progress, next))
  {
    hide Asked, CancelSeen, Matches, MonitorAsked, UpdateJob;
    var pc := if CancelSeen(s.row) then CancelWrite else Raised;
    QuietPlaces(s.row, pc);
    QuietAsked(s, At(s, k, pc), k, pc);
  }

  lemma RunAsked(s: JobState, k: nat, a: RunAction, remote: Remote)
    requires Inv(s, remote) && Asked(s) && k in s.threads && RunEnabled(s, k, a, remote)
    ensures Asked(RunStep(s, k, a, remote))
  {
    hide Inv, Asked, RunEnabled, CacheStep, UploadStep, SubmitStep;
    if CachePath(a) { CacheAsked(s, k, a, remote); }
    else if UploadPath(a) { UploadAsked(s, k, a, remote); }
    else { SubmitAsked(s, k, a, remote); }
  }

  lemma CacheAsked(s: JobState, k: nat, a: RunAction, remote: Remote)
    requires Inv(s, remote) && Asked(s) && k in s.threads && RunEnabled(s, k, a, remote) && CachePath(a)
    ensures Asked(CacheStep(s, k, a, remote))
  {
    hide Inv, Asked, Serves, Pinned, Rewritten, CancelSeen, Get;
    OnlyThread(s, k, remote);
    SeenAsked(s);
    var t := CacheStep(s, k, a, remote);
    QuietAsked(s, t, k, t.threads[k].pc);
  }

  lemma UploadAsked(s: JobState, k: nat, a: RunAction, remote: Remote)
    requires Inv(s, remote) && Asked(s) && k in s.threads && RunEnabled(s, k, a, remote) && UploadPath(a)
    ensures Asked(UploadStep(s, k, a, remote))
  {
    hide Inv, Asked, Transition;
    OnlyThread(s, k, remote);
    var t, pc := UploadStep(s, k, a, remote), s.threads[k].pc;
    if a.Prepare? {
      if pc.saved.Some? { TransitionAsked(s, k, {Queued}, WaitingDataset, 35, Verify(pc.saved.value), remote); }
      else { TransitionAsked(s, k, {Queued, UploadingDataset, WaitingDataset}, UploadingDataset, 20, Uploading, remote); }
    } else if a.AfterUpload? {
      TransitionAsked(s, k, {UploadingDataset}, WaitingDataset, 35, Verify(pc.receipt), remote);
    } else {
      QuietAsked(s, t, k, t.threads[k].pc);
    }
  }

  lemma SubmitAsked(s: JobState, k: nat, a: RunAction, remote: Remote)
    requires Inv(s, remote) && Asked(s) && k in s.threads && RunEnabled(s, k, a, remote) && SubmitPath(a)
    ensures Asked(SubmitStep(s, k, a, remote))
  {
    hide Inv, Asked, Transition, Serves, Pinned, CancelSeen, Get;
    OnlyThread(s, k, remote);
    SeenAsked(s);
    var t, pc := SubmitStep(s, k, a, remote), s.threads[k].pc;
    if a.Submit? {
      SubmitTransitionAsked(s, k, pc.receipt, remote);
    } else if a.PinVersion? {
      PinAsked(s, k, pc.receipt);
    } else {
      QuietAsked(s, t, k, t.threads[k].pc);
    }
  }

  lemma SubmitTransitionAsked(s: JobState, k: nat, r: Receipt, remote: Remote)
    requires Inv(s, remote) && Asked(s) && k in s.threads
    ensures var u := Transition(s, k, {Queued, WaitingDataset}, PushingKernel, 45, Push(r));
      Asked(u.(entered := s.entered || u.threads[k].pc.Push?))
  {
    hide Inv, Transition;
    TransitionAsked(s, k, {Queued, WaitingDataset}, PushingKernel, 45, Push(r), remote);
  }

  lemma PinAsked(s: JobState, k: nat, r: Receipt)
    requires Asked(s) && k in s.threads && (forall q :: q in s.threads ==> q == k)
    ensures Asked(PinStep(s, k, r))
  {
    hide Asked, Pinned, CancelSeen;
    SeenAsked(s);
    QuietAsked(s, PinStep(s, k, r), k, if CancelSeen(s.row) then CancelWrite else Ready(r));
  }

  lemma MonitorAskedStep(s: JobState, k: nat, a: MonitorAction, remote: Remote)
    requires Inv(s, remote) && Asked(s) && k in s.threads && MonitorEnabled(s.threads[k], a)
    ensures Asked(MonitorStep(s, k, a))
  {
    hide Inv, Asked, ReadRowStep, WriteRowStep, Finalize, LostRow;
    OnlyThread(s, k, remote);
    match a {
      case ReadRow(target, floor) => ReadAsked(s, k, target, floor);
      case WriteRow => WriteAsked(s, k);
      case RecordOutput => RecordAsked(s, k, MonitorStep(s, k, a));
      case Deliver => DeliverAsked(s, k);
      case LoseMonitor => LoseAsked(s, k);
    }
  }

  lemma ReadAsked(s: JobState, k: nat, target: Status, floor: int)
    requires Asked(s) && k in s.threads && (forall q :: q in s.threads ==> q == k)
    requires MonitorEnabled(s.threads[k], ReadRow(target, floor))
    ensures Asked(ReadRowStep(s, k, target, floor))
  {
    hide Asked, Max, MonitorAsked, MonitorEnabled;
    ThreadAsked(s, k);
    ReadLooksFor(s.threads[k], target, floor);
    var t := ReadRowStep(s, k, target, floor);
    SeenAsked(s);
    ReadPc(s, k, target, floor);
    assert t.threads == s.threads[k := s.threads[k].(pc := t.threads[k].pc)];
    QuietAsked(s, t, k, t.threads[k].pc);
  }

  lemma ReadLooksFor(t: Thread, target: Status, floor: int)
    requires MonitorEnabled(t, ReadRow(target, floor))
    ensures t.pc.Finish? && (target == WaitingKernel || target == DownloadingOutput)
  {
  }

  lemma ReadPc(s: JobState, k: nat, target: Status, floor: int)
    requires k in s.threads && s.threads[k].pc.Finish? && (target == WaitingKernel || target == DownloadingOutput)
    requires MonitorAsked(s.row, s.threads[k].pc) && (CancelSeen(s.row) <==> s.row.cancelRequested)
    ensures var t := ReadRowStep(s, k, target, floor); t.row == s.row && t.queue == s.queue && k in t.threads && MonitorAsked(t.row, t.threads[k].pc)
  {
    hide Max;
    if Terminal(s.row.status) { } else { }
  }

  lemma WriteAsked(s: JobState, k: nat)
    requires Asked(s) && k in s.threads && (forall q :: q in s.threads ==> q == k) && s.threads[k].pc.FinishWrite?
    ensures Asked(WriteRowStep(s, k))
  {
    hide Asked, MonitorAsked, MonitoredRow;
    var pc, t := s.threads[k].pc, WriteRowStep(s, k);
    ThreadAsked(s, k);
    WrittenRow(s.row, pc);
    if s.row.status == pc.seen {
      assert t == At(s.(row := MonitoredRow(s.row, pc)), k, Finish(pc.final, pc.goal));
      WrittenAsked(s, t, k, Finish(pc.final, pc.goal));
    } else {
      WrittenAsked(s, t, k, Finish(pc.final, pc.phase));
    }
  }

  lemma WrittenRow(row: Row, pc: Pc)
    requires pc.FinishWrite? && MonitorAsked(row, pc)
    ensures var row' := MonitoredRow(row, pc);
      && row'.cancelRequested == row.cancelRequested && row'.status == pc.next
      && (forall goal :: MonitorAsked(row', Finish(pc.final, goal)))
    ensures forall goal :: MonitorAsked(row, Finish(pc.final, goal))
    ensures pc.next == WaitingKernel || pc.next == DownloadingOutput || (pc.next == CancelRequested && row.cancelRequested)
  {
  }

  lemma WrittenAsked(s: JobState, t: JobState, k: nat, pc: Pc)
    requires Asked(s) && k in s.threads && (forall q :: q in s.threads ==> q == k)
    requires t.threads == s.threads[k := s.threads[k].(pc := pc)] && t.queue == s.queue && t.row.cancelRequested == s.row.cancelRequested
    requires MonitorAsked(t.row, pc)
    requires t.row.status == s.row.status || t.row.status == WaitingKernel || t.row.status == DownloadingOutput
             || (t.row.status == CancelRequested && t.row.cancelRequested)
    ensures Asked(t)
  {
    hide MonitorAsked;
  }

  lemma RecordAsked(s: JobState, k: nat, t: JobState)
    requires Asked(s) && k in s.threads && t.threads == s.threads && t.queue == s.queue
    requires t.row.status == s.row.status && t.row.cancelRequested == s.row.cancelRequested
    ensures Asked(t)
  {
  }

  lemma DeliverAsked(s: JobState, k: nat)
    requires Asked(s) && k in s.threads && (forall q :: q in s.threads ==> q == k) && s.threads[k].pc.Finish?
    ensures Asked(Exit(s.(row := Finalize(s.row, s.threads[k].pc.final, Update(progress := Some(100), error := Some(NoError)))), k))
  {
  }

  lemma LoseAsked(s: JobState, k: nat)
    requires Asked(s) && k in s.threads && (forall q :: q in s.threads ==> q == k)
    ensures Asked(Exit(s.(row := LostRow(s.row)), k))
  {
  }

  lemma ErrorAsked(s: JobState, k: nat, a: ErrorAction, remote: Remote)
    requires Inv(s, remote) && Asked(s) && k in s.threads && ErrorEnabled(s, k, a)
    ensures Asked(ErrorStep(s, k, a))
  {
    hide Inv, Get;
    OnlyThread(s, k, remote);
    var t := ErrorStep(s, k, a);
    match a {
      case Raise => QuietAsked(s, t, k, t.threads[k].pc);
      case NoticeCancel => QuietAsked(s, t, k, t.threads[k].pc);
      case Handle(_, _) => QuietAsked(s, t, k, t.threads[k].pc);
      case Retain => QuietAsked(s, t, k, t.threads[k].pc);
      case _ => assert t.threads == map[];
    }
  }

  lemma ChildAsked(s: JobState, c: nat, a: ChildAction)
    requires c in s.children && ChildEnabled(s, c, a) && Asked(s)
    ensures Asked(ChildStep(s, c, a))
  {
  }

  lemma CrashAsked(s: JobState, kind: CrashKind)
    requires Asked(s)
    ensures Asked(CrashStep(s, kind))
  {
  }

  /** Nothing of a job's intake is done beside a worker. */
  lemma IntakeAsked(s: JobState, a: IntakeAction, remote: Remote)
    requires Inv(s, remote) && Asked(s) && IntakeEnabled(s, a)
    ensures Asked(IntakeStep(s, a))
  {
    hide Files, Children, History, RewriteOwner, RowOk;
  }

  lemma ServerAsked(s: JobState, a: ServerAction, remote: Remote)
    requires Inv(s, remote) && Asked(s) && ServerEnabled(s, a)
    ensures Asked(ServerStep(s, a))
  {
    hide Inv, Asked, ServerEnabled, Requeue, CancelUpdate, UpdateJob, UpdateIfStatus;
    match a {
      case Dequeue(item, k) => DequeueAsked(s, item, k);
      case SkipItem(item) => LessQueueAsked(s, ServerStep(s, a));
      case Supersede(item) => LessQueueAsked(s, ServerStep(s, a));
      case RequestCancel => CancelAsked(s, remote);
      case Callback(target, p) => CallbackAsked(s, target, p, remote);
      case ResumeMonitoring => ResumeAsked(s);
      case ManualRecheck(_) => RecheckWaits(s, a); RecheckAsked(s, remote);
      case ClaimRecheck => RecheckWaits(s, a); RecheckAsked(s, remote);
      case PlanRecheck(r) => PlanAsked(s, r);
      case ChangeLocal(_) => LessQueueAsked(s, ServerStep(s, a));
    }
  }

  lemma RecheckWaits(s: JobState, a: ServerAction)
    requires ServerEnabled(s, a) && (a.ManualRecheck? || a.ClaimRecheck?)
    ensures s.row.status == WaitingDataset
  {
    hide Retainable;
  }

  lemma DequeueAsked(s: JobState, item: Item, k: nat)
    requires Asked(s) && ServerEnabled(s, Dequeue(item, k))
    ensures Asked(ServerStep(s, Dequeue(item, k)))
  {
  }

  lemma LessQueueAsked(s: JobState, t: JobState)
    requires Asked(s) && t.row == s.row && t.threads == s.threads && t.queue <= s.queue
    ensures Asked(t)
  {
  }

  lemma MonitorsPushed(s: JobState, remote: Remote)
    requires Inv(s, remote)
    ensures forall k :: k in s.threads && s.threads[k].pc.FinishWrite? ==> !PrePush(s.row.status)
  {
    hide Exclusive, Fresh, RowOk, Files, Children, History;
    forall k | k in s.threads && s.threads[k].pc.FinishWrite? ensures !PrePush(s.row.status) {
      assert ThreadOk(s, s.threads[k], remote);
    }
  }

  lemma CancelAsked(s: JobState, remote: Remote)
    requires Inv(s, remote) && Asked(s) && ServerEnabled(s, RequestCancel)
    ensures Asked(ServerStep(s, RequestCancel))
  {
    hide Inv;
    MonitorsPushed(s, remote);
  }

  lemma CallbackAsked(s: JobState, target: Status, p: int, remote: Remote)
    requires Inv(s, remote) && Asked(s) && ServerEnabled(s, Callback(target, p))
    ensures Asked(ServerStep(s, Callback(target, p)))
  {
    hide Inv, Asked, ServerEnabled, MonitorAsked, PrePush;
    MonitorsPushed(s, remote);
    CallbackTarget(s, target, p);
    CalledBack(s, s.(row := s.row.(status := target, progress := p)));
  }

  lemma CallbackTarget(s: JobState, target: Status, p: int)
    requires ServerEnabled(s, Callback(target, p))
    ensures target == s.row.status || target == WaitingKernel || (target == CancelRequested && s.row.cancelRequested)
    ensures s.row.cancelRequested && !PrePush(s.row.status) ==> target == s.row.status || target == CancelRequested
  {
  }

  lemma CalledBack(s: JobState, t: JobState)
    requires Asked(s) && t.threads == s.threads && t.queue == s.queue && t.row.cancelRequested == s.row.cancelRequested
    requires t.row.status == s.row.status || t.row.status == WaitingKernel || (t.row.status == CancelRequested && s.row.cancelRequested)
    requires s.row.cancelRequested && !PrePush(s.row.status) ==> t.row.status == s.row.status || t.row.status == CancelRequested
    requires forall k :: k in s.threads && s.threads[k].pc.FinishWrite? ==> !PrePush(s.row.status)
    ensures Asked(t)
  {
    hide PrePush;
    forall k | k in t.threads ensures MonitorAsked(t.row, t.threads[k].pc) {
      assert MonitorAsked(s.row, s.threads[k].pc);
    }
  }

  lemma ResumeAsked(s: JobState)
    requires Asked(s) && ServerEnabled(s, ResumeMonitoring)
    ensures Asked(ServerStep(s, ResumeMonitoring))
  {
  }

  lemma RecheckAsked(s: JobState, remote: Remote)
    requires Inv(s, remote) && Asked(s) && s.row.status == WaitingDataset
    ensures Asked(Requeue(s))
  {
    hide Inv;
    MonitorsPushed(s, remote);
  }

  lemma PlanAsked(s: JobState, r: Recheck)
    requires Asked(s) && ServerEnabled(s, PlanRecheck(r))
    ensures Asked(ServerStep(s, PlanRecheck(r)))
  {
  }

  lemma RecoverAsked(s: JobState, o: Observed, remote: Remote)
    requires Inv(s, remote) && Asked(s) && Enabled(s, Recover(o), remote)
    ensures Asked(RecoverStep(s, o))
  {
    hide Inv, RecoverStep, Step, Enabled, Resumes, AtRest, Asked;
    RecoveryDecides(s, o, remote);
    RecoverIs(s, o, remote);
    AtRestart(s, remote);
    NoThreads(s, remote);
    DecidedAsked(s, o, RecoverStep(s, o));
  }

  lemma RecoverIs(s: JobState, o: Observed, remote: Remote)
    requires Enabled(s, Recover(o), remote)
    ensures s.recovering && Step(s, Recover(o), remote) == RecoverStep(s, o)
  {
    hide RecoverStep;
  }

  lemma DecidedAsked(s: JobState, o: Observed, t: JobState)
    requires Asked(s) && AtRest(s) && s.threads == map[] && Resumes(s, o, t)
    ensures Asked(t)
  {
    hide UsableIntent;
    assert t.threads == map[];
  }

  lemma NoThreads(s: JobState, remote: Remote)
    requires Inv(s, remote) && s.recovering
    ensures s.threads == map[]
  {
  }

  lemma CreatedAsked(ref: string, dynamic: bool, reserved: nat)
    ensures Asked(Created(ref, dynamic, reserved))
  {
  }

  lemma {:induction false} AlwaysAsked(ws: seq<World>, es: seq<Event>, i: nat, j: JobId)
    requires Execution(ws, es) && i < |ws| && j in ws[i].jobs
    ensures Asked(ws[i].jobs[j])
  {
    hide Inv, Asked, Step, Enabled, Created, Possible, Next;
    assert i > 0 by { NobodyAtFirst(ws[0], j); }
    var w, e := ws[i - 1], es[i - 1];
    WorldStep(ws, es, i - 1);
    if j in w.jobs {
      AlwaysAsked(ws, es, i - 1, j);
      AlwaysHealthy(ws, es, i - 1);
      NextJob(w, e, j);
      if JobAction(j, e).Some? { AskedStep(w.jobs[j], JobAction(j, e).value, w.remote); }
    } else {
      NewAsked(w, e, j);
    }
  }

  lemma NewAsked(w: World, e: Event, j: JobId)
    requires Possible(w, e) && j !in w.jobs && j in Next(w, e).jobs
    ensures Asked(Next(w, e).jobs[j])
  {
    hide CrashStep, Step, Enabled, Asked, Created;
    CreatedAsked(e.datasetRef, e.dynamic, e.reserved);
  }

  /** In every execution a job that is canceled, or about to be, was asked to be. */
  lemma CanceledOnRequest(ws: seq<World>, es: seq<Event>, i: nat, j: JobId)
    requires Execution(ws, es) && i < |ws| && j in ws[i].jobs
    requires ws[i].jobs[j].row.status == CancelRequested || ws[i].jobs[j].row.status == Canceled
    ensures ws[i].jobs[j].row.cancelRequested
    ensures exists b :: 0 <= b < i && es[b] == Act(j, Server(RequestCancel))
  {
    hide Next, Possible;
    AlwaysAsked(ws, es, i, j);
    RequestedBefore(ws, es, i, j);
  }

  lemma {:induction false} RequestedBefore(ws: seq<World>, es: seq<Event>, i: nat, j: JobId)
    requires Execution(ws, es) && i < |ws| && j in ws[i].jobs && ws[i].jobs[j].row.cancelRequested
    ensures exists b :: 0 <= b < i && es[b] == Act(j, Server(RequestCancel))
  {
    hide Inv, Step, Enabled, Created, Possible, Next;
    assert i > 0 by { NobodyAtFirst(ws[0], j); }
    var w, e := ws[i - 1], es[i - 1];
    WorldStep(ws, es, i - 1);
    if j in w.jobs {
      NextJob(w, e, j);
      if JobAction(j, e).Some? { RequestSets(w.jobs[j], JobAction(j, e).value, w.remote); }
      if w.jobs[j].row.cancelRequested { RequestedBefore(ws, es, i - 1, j); }
      else { assert JobAction(j, e) == Some(Server(RequestCancel)); assert es[i - 1] == Act(j, Server(RequestCancel)); }
    } else {
      NewUnasked(w, e, j);
    }
  }

  lemma NewUnasked(w: World, e: Event, j: JobId)
    requires Possible(w, e) && j !in w.jobs && j in Next(w, e).jobs
    ensures !Next(w, e).jobs[j].row.cancelRequested
  {
    hide CrashStep, Step, Enabled;
  }

  /** Nothing but a cancellation request records one. */
  lemma RequestSets(s: JobState, a: Action, remote: Remote)
    requires Enabled(s, a, remote) && Step(s, a, remote).row.cancelRequested
    ensures s.row.cancelRequested || a == Server(RequestCancel)
  {
    hide RunStep, MonitorStep, ErrorStep, ChildStep, IntakeStep, ServerStep, CrashStep, RecoverStep;
    match a {
      case Run(k, r) => RunSets(s, k, r, remote);
      case Monitor(k, m) => MonitorSets(s, k, m);
      case Err(k, e) => ErrorSets(s, k, e);
      case Upload(c, u) => Outcomes.ChildKeepsRow(s, c, u);
      case Intake(i) => IntakeSets(s, i);
      case Server(q) => ServerSets(s, q);
      case Crash(kind) => Outcomes.CrashKeepsRow(s, kind);
      case Recover(o) => RecoverSets(s, o);
    }
  }

  lemma UpdateSets(row: Row, expected: set<Status>, requireNotCanceled: bool, preferred: Status, u: Update)
    requires u.cancelRequested.None?
    ensures UpdateJob(row, u).cancelRequested == row.cancelRequested
    ensures UpdateIfStatus(row, expected, requireNotCanceled, u).cancelRequested == row.cancelRequested
    ensures Finalize(row, preferred, u).cancelRequested == row.cancelRequested
  {
  }

  lemma TransitionSets(s: JobState, k: nat, expected: set<Status>, status: Status, progress: int, next: Pc)
    requires k in s.threads
    ensures Transition(s, k, expected, status, progress, next).row.cancelRequested == s.row.cancelRequested
  {
    hide Matches, CancelSeen, UpdateJob;
    var t := Transition(s, k, expected, status, progress, next);
    if Matches(s.row, expected, true) {
      assert t.row == UpdateJob(s.row, Update(status := Some(status), progress := Some(progress)));
      UpdateSets(s.row, {}, true, status, Update(status := Some(status), progress := Some(progress)));
    } else {
      assert t.row == s.row;
    }
  }

  lemma RunSets(s: JobState, k: nat, a: RunAction, remote: Remote)
    requires k in s.threads && RunEnabled(s, k, a, remote)
    ensures RunStep(s, k, a, remote).row.cancelRequested == s.row.cancelRequested
  {
    hide RunEnabled, CacheStep, UploadStep, SubmitStep;
    if CachePath(a) { CacheSets(s, k, a, remote); }
    else if UploadPath(a) { UploadSets(s, k, a, remote); }
    else { SubmitSets(s, k, a, remote); }
  }

  lemma CacheSets(s: JobState, k: nat, a: RunAction, remote: Remote)
    requires k in s.threads && RunEnabled(s, k, a, remote) && CachePath(a)
    ensures CacheStep(s, k, a, remote).row.cancelRequested == s.row.cancelRequested
  {
    hide Serves, AcquirePc, CancelSeen, Transition, Pinned, Rewritten;
    match a {
      case Acquire(_) =>
      case VerifyCached =>
      case PinCached =>
      case RecordCached =>
    }
  }

  lemma UploadSets(s: JobState, k: nat, a: RunAction, remote: Remote)
    requires k in s.threads && RunEnabled(s, k, a, remote) && UploadPath(a)
    ensures UploadStep(s, k, a, remote).row.cancelRequested == s.row.cancelRequested
  {
    hide Serves, CancelSeen, Transition;
    var pc := s.threads[k].pc;
    match a {
      case Prepare =>
        if pc.saved.Some? { TransitionSets(s, k, {Queued}, WaitingDataset, 35, Verify(pc.saved.value)); }
        else { TransitionSets(s, k, {Queued, UploadingDataset, WaitingDataset}, UploadingDataset, 20, Uploading); }
      case ReuseIntent =>
      case StartUpload(_, _) =>
      case UploadReturned =>
      case GiveUpUpload =>
      case AfterUpload => TransitionSets(s, k, {UploadingDataset}, WaitingDataset, 35, Verify(pc.receipt));
    }
  }

  lemma SubmitSets(s: JobState, k: nat, a: RunAction, remote: Remote)
    requires k in s.threads && RunEnabled(s, k, a, remote) && !CachePath(a) && !UploadPath(a)
    ensures SubmitStep(s, k, a, remote).row.cancelRequested == s.row.cancelRequested
  {
    hide Serves, Pinned, Rewritten, CancelSeen, Transition, PinStep;
    var pc := s.threads[k].pc;
    match a {
      case VerifyBytes =>
      case RecordVerified =>
      case PinVersion => Outcomes.PinKeepsRow(s, k, pc.receipt);
      case Submit => TransitionSets(s, k, {Queued, WaitingDataset}, PushingKernel, 45, Push(pc.receipt));
      case PushCall(_) =>
    }
  }

  lemma MonitorSets(s: JobState, k: nat, a: MonitorAction)
    requires k in s.threads && MonitorEnabled(s.threads[k], a)
    ensures MonitorStep(s, k, a).row.cancelRequested == s.row.cancelRequested
  {
    hide ReadRowStep, WriteRowStep, Max;
    match a {
      case ReadRow(target, floor) => Outcomes.ReadKeepsRow(s, k, target, floor);
      case WriteRow => WriteSets(s, k);
      case _ =>
    }
  }

  lemma WriteSets(s: JobState, k: nat)
    requires k in s.threads && s.threads[k].pc.FinishWrite?
    ensures WriteRowStep(s, k).row.cancelRequested == s.row.cancelRequested
  {
    hide MonitoredRow;
    MonitoredSets(s.row, s.threads[k].pc);
    if s.row.status == s.threads[k].pc.seen { } else { }
  }

  lemma MonitoredSets(row: Row, pc: Pc)
    requires pc.FinishWrite?
    ensures MonitoredRow(row, pc).cancelRequested == row.cancelRequested
  {
  }

  lemma ErrorSets(s: JobState, k: nat, a: ErrorAction)
    requires k in s.threads && ErrorEnabled(s, k, a)
    ensures ErrorStep(s, k, a).row.cancelRequested == s.row.cancelRequested
  {
    hide Get, UpdateJob, UpdateIfStatus, Finalize;
    match a {
      case Retain => UpdateSets(s.row, {}, true, Failed, Update(status := Some(WaitingDataset), error := Some(RetainedCandidate)));
      case Schedule(r) => UpdateSets(s.row, {WaitingDataset}, true, Failed, Update(recheck := Some(r)));
      case Fail => UpdateSets(s.row, {}, true, Failed, Update(progress := Some(0), error := Some(OtherError)));
      case Cancel => UpdateSets(s.row, {}, true, Canceled, Update(error := Some(OtherError)));
      case _ =>
    }
  }

  lemma IntakeSets(s: JobState, a: IntakeAction)
    requires IntakeEnabled(s, a)
    ensures IntakeStep(s, a).row.cancelRequested == s.row.cancelRequested
  {
    hide RewriteOwner, IntakeEnabled, UpdateJob, UpdateIfStatus, Matches, AwaitingAssignment;
    match a {
      case StartAssembly => UpdateSets(s.row, {}, true, Failed, Update(status := Some(Assembling), progress := Some(10)));
      case Reserve(n) => UpdateSets(s.row, {}, true, Failed, Update(reserved := Some(n)));
      case Consume(n) => assert IntakeStep(s, a).row.cancelRequested == s.row.cancelRequested;
      case AssemblyDone(_, _) => UpdateSets(s.row, {Assembling}, false, Failed, Update(status := Some(Queued), progress := Some(15), error := Some(NoError)));
      case AssemblyFull => UpdateSets(s.row, {Assembling}, false, Failed, Update(status := Some(Receiving), error := Some(OtherError)));
      case AssemblyFailed => UpdateSets(s.row, {Assembling}, false, Failed, Update(status := Some(Failed), progress := Some(0), error := Some(OtherError)));
      case CommitChunk(n) => assert IntakeStep(s, a).row.cancelRequested == s.row.cancelRequested;
      case ExpireUpload => UpdateSets(s.row, {}, true, Failed, Update(status := Some(Failed), error := Some(OtherError)));
      case Bind(owner) => UpdateSets(s.row, {}, true, Failed, Update(pending := Some(false), datasetRef := RewriteOwner(s.row.datasetRef, owner)));
      case RejectBinding => UpdateSets(s.row, {}, true, Failed, Update(status := Some(Failed), error := Some(OtherError)));
    }
  }

  lemma ServerSets(s: JobState, a: ServerAction)
    requires ServerEnabled(s, a)
    ensures ServerStep(s, a).row.cancelRequested ==> s.row.cancelRequested || a == RequestCancel
  {
    hide ServerEnabled, Requeue, UpdateJob, UpdateIfStatus;
    match a {
      case ResumeMonitoring => UpdateSets(s.row, {}, true, Failed, Update(error := Some(NoError)));
      case ManualRecheck(_) => RequeueSets(s);
      case ClaimRecheck => RequeueSets(s);
      case PlanRecheck(r) => UpdateSets(s.row, {WaitingDataset}, true, Failed, Update(recheck := Some(r)));
      case _ =>
    }
  }

  lemma RequeueSets(s: JobState)
    ensures Requeue(s).row.cancelRequested == s.row.cancelRequested
  {
    hide UpdateJob;
    UpdateSets(s.row, {}, true, Failed, Update(status := Some(Queued), error := Some(NoError), recheck := Some(Checking)));
  }

  lemma RecoverSets(s: JobState, o: Observed)
    requires s.recovering
    ensures RecoverStep(s, o).row.cancelRequested == s.row.cancelRequested
  {
    hide RecoverEnqueue, RecoverFail, RecoverCancel, RecoverAssembly, RecoverCandidate;
    var s' := s.(recovering := false);
    FailedRow(s');
    CancelSets(s', o);
    AssemblySets(s', o);
    CandidateSets(s', o);
  }

  lemma CancelSets(s: JobState, o: Observed)
    ensures RecoverCancel(s, o).row.cancelRequested == s.row.cancelRequested
  {
    hide UpdateJob, RecoverFail, RecoverEnqueue;
    FailedRow(s);
    UpdateSets(s.row, {}, true, Failed, Update(status := Some(Canceled), error := Some(OtherError)));
  }

  lemma AssemblySets(s: JobState, o: Observed)
    ensures RecoverAssembly(s, o).row.cancelRequested == s.row.cancelRequested
  {
    hide AwaitingAssignment;
    if o.assembled { } else { }
  }

  lemma CandidateSets(s: JobState, o: Observed)
    ensures RecoverCandidate(s, o).row.cancelRequested == s.row.cancelRequested
  {
    hide RecoverFail, RecoverEnqueue, UpdateJob;
    FailedRow(s);
    UpdateSets(s.row, {}, true, Failed, Update(status := Some(Queued), error := Some(NoError)));
    var i := Get(s.view, s.row.datasetRef);
    if !o.readable || i.None? || i.value.state == Rejected { } else { }
  }

  // ---- how a job ends ----

  /** The last step of a job: what it is, and how the job ends then. */
  predicate Ends(s: JobState, a: Action, t: JobState) {
    && (t.row.status == Complete ==> a.Monitor? && a.monitor == Deliver && !s.row.cancelRequested)
    && (t.row.status == Canceled ==> t.row.cancelRequested)
    && (t.row.status == Failed ==>
          || (a.Err? && a.err == Fail && !s.row.cancelRequested)
          || (a.Intake? && (a.intake == AssemblyFailed || a.intake == ExpireUpload || a.intake == RejectBinding))
          || (a.Recover? && LostAtRestart(s.row, UsableIntent(s, a.seen.readable), a.seen)))
    && (a.Monitor? && a.monitor == Deliver ==> t.row.status == if s.row.cancelRequested then Canceled else Complete)
    && (a.Err? && a.err == Fail ==> t.row.status == if s.row.cancelRequested then Canceled else Failed)
    && t.row.reserved == 0
  }

  /** In every execution: a job completes only when the output of its kernel was delivered and nobody asked to cancel it, it is canceled
      only if somebody asked, and it fails only by its intake, in the failure handler, or at a restart that lost it.  Delivery and
      the handler end it as canceled exactly if somebody asked. */
  lemma HowJobsEnd(ws: seq<World>, es: seq<Event>, i: nat, j: JobId)
    requires Execution(ws, es) && i < |es| && j in ws[i].jobs && !Terminal(ws[i].jobs[j].row.status)
    requires j in ws[i + 1].jobs && Terminal(ws[i + 1].jobs[j].row.status)
    ensures JobAction(j, es[i]).Some? && Ends(ws[i].jobs[j], JobAction(j, es[i]).value, ws[i + 1].jobs[j])
  {
    hide Inv, Step, Enabled, Possible, Next, Ends, Asked;
    AlwaysHealthy(ws, es, i);
    AlwaysHealthy(ws, es, i + 1);
    AlwaysAsked(ws, es, i, j);
    AlwaysAsked(ws, es, i + 1, j);
    WorldStep(ws, es, i);
    NextJob(ws[i], es[i], j);
    LastStep(ws[i].jobs[j], JobAction(j, es[i]).value, ws[i].remote, ws[i + 1].remote);
  }

  lemma LastStep(s: JobState, a: Action, remote: Remote, later: Remote)
    requires Inv(s, remote) && Asked(s) && Enabled(s, a, remote) && !Terminal(s.row.status) && Terminal(Step(s, a, remote).row.status)
    requires Inv(Step(s, a, remote), later) && Asked(Step(s, a, remote))
    ensures Ends(s, a, Step(s, a, remote))
  {
    hide Inv, Asked, RunStep, MonitorStep, ErrorStep, ChildStep, IntakeStep, ServerStep, CrashStep, RecoverStep, Ends;
    var t := Step(s, a, remote);
    SeenAsked(s);
    EndedRow(t, later);
    match a {
      case Run(k, r) => Outcomes.RunNeverEnds(s, k, r, remote);
      case Monitor(k, m) => MonitorLast(s, k, m, remote);
      case Err(k, e) => ErrorLast(s, k, e);
      case Upload(c, u) => Outcomes.ChildKeepsRow(s, c, u);
      case Intake(i) => IntakeLast(s, i, t);
      case Server(q) => ServerLast(s, q, t);
      case Crash(kind) => Outcomes.CrashKeepsRow(s, kind);
      case Recover(o) => RecoverLast(s, o, remote, t);
    }
  }

  lemma EndedRow(t: JobState, remote: Remote)
    requires Inv(t, remote) && Asked(t) && Terminal(t.row.status)
    ensures t.row.reserved == 0 && (t.row.status == Canceled ==> t.row.cancelRequested)
  {
    hide Exclusive, Fresh, Files, Children, Threads, History;
  }

  lemma MonitorLast(s: JobState, k: nat, a: MonitorAction, remote: Remote)
    requires Inv(s, remote) && Asked(s) && k in s.threads && MonitorEnabled(s.threads[k], a) && !Terminal(s.row.status)
    requires var t := MonitorStep(s, k, a); Terminal(t.row.status) && t.row.reserved == 0 && (t.row.status == Canceled ==> t.row.cancelRequested)
    ensures Ends(s, Monitor(k, a), MonitorStep(s, k, a))
  {
    hide Inv, Asked, ReceiptOk, RowOk, Finalize, ReadRowStep, WriteRowStep, UpdateJob, PlaceOk;
    ThreadFacts(s, k, remote);
    match a {
      case ReadRow(target, floor) => Outcomes.ReadKeepsRow(s, k, target, floor);
      case WriteRow => Outcomes.WriteStaysOpen(s, k);
      case RecordOutput => Outcomes.KeepsStatus(s.row, Update(progress := Some(Max(s.row.progress, 82))));
      case Deliver => Delivered(s, k);
      case LoseMonitor => Outcomes.KeepsStatus(s.row, Update(error := Some(KernelStatusUnknown)));
    }
  }

  lemma Delivered(s: JobState, k: nat)
    requires Asked(s) && k in s.threads && s.threads[k].pc.Finish? && !Terminal(s.row.status)
    ensures var row := Finalize(s.row, s.threads[k].pc.final, Update(progress := Some(100), error := Some(NoError)));
      row.status == (if s.row.cancelRequested then Canceled else Complete) && row.cancelRequested == s.row.cancelRequested
  {
  }

  lemma ErrorLast(s: JobState, k: nat, a: ErrorAction)
    requires k in s.threads && ErrorEnabled(s, k, a) && !Terminal(s.row.status) && (CancelSeen(s.row) <==> s.row.cancelRequested)
    requires var t := ErrorStep(s, k, a); Terminal(t.row.status) && t.row.reserved == 0 && (t.row.status == Canceled ==> t.row.cancelRequested)
    ensures Ends(s, Err(k, a), ErrorStep(s, k, a))
  {
    hide Get, UpdateJob, Finalize, UpdateIfStatus;
    match a {
      case Retain => Outcomes.RetainsWaiting(s.row);
      case Schedule(r) => PlanKeepsStatus(s.row, r);
      case Fail => Finalized(s.row, Failed, Update(progress := Some(0), error := Some(OtherError)));
      case Cancel => Finalized(s.row, Canceled, Update(error := Some(OtherError)));
      case _ =>
    }
  }

  lemma PlanKeepsStatus(row: Row, r: Recheck)
    ensures UpdateIfStatus(row, {WaitingDataset}, true, Update(recheck := Some(r))).status == row.status
  {
  }

  lemma Finalized(row: Row, preferred: Status, u: Update)
    requires !Terminal(row.status) && (CancelSeen(row) <==> row.cancelRequested)
    ensures Finalize(row, preferred, u).status == if row.cancelRequested then Canceled else preferred
  {
  }

  lemma IntakeLast(s: JobState, a: IntakeAction, t: JobState)
    requires IntakeEnabled(s, a) && !Terminal(s.row.status) && t == IntakeStep(s, a)
    requires Terminal(t.row.status) && t.row.reserved == 0 && (t.row.status == Canceled ==> t.row.cancelRequested)
    ensures Ends(s, Intake(a), t)
  {
    hide RewriteOwner;
  }

  lemma ServerLast(s: JobState, a: ServerAction, t: JobState)
    requires ServerEnabled(s, a) && !Terminal(s.row.status) && t == ServerStep(s, a)
    requires Terminal(t.row.status) && t.row.reserved == 0 && (t.row.status == Canceled ==> t.row.cancelRequested)
    ensures Ends(s, Server(a), t)
  {
    hide Retainable, AwaitingAssignment;
    assert a.RequestCancel?;
  }

  lemma RecoverLast(s: JobState, o: Observed, remote: Remote, t: JobState)
    requires Inv(s, remote) && Enabled(s, Recover(o), remote) && !Terminal(s.row.status) && t == Step(s, Recover(o), remote)
    requires Terminal(t.row.status) && t.row.reserved == 0 && (t.row.status == Canceled ==> t.row.cancelRequested)
    ensures Ends(s, Recover(o), t)
  {
    hide Inv, Enabled, Step, UsableIntent;
    RecoveryDecides(s, o, remote);
  }

  // ---- monitoring honours a cancellation ----

  /** In every execution a monitoring write either loses the race for its row or shows the job as being canceled exactly if
      somebody asked for it. */
  lemma MonitorHonorsCancel(ws: seq<World>, es: seq<Event>, i: nat, j: JobId, k: nat)
    requires Execution(ws, es) && i < |es| && es[i] == Act(j, Monitor(k, WriteRow))
    ensures j in ws[i].jobs && j in ws[i + 1].jobs
    ensures var row, after := ws[i].jobs[j].row, ws[i + 1].jobs[j].row;
      after == row || ((after.status == CancelRequested <==> row.cancelRequested) && (after.status in {WaitingKernel, DownloadingOutput, CancelRequested}))
  {
    hide Inv, Step, Enabled, Possible, Next, Asked;
    WorldStep(ws, es, i);
    ActInJobs(ws[i], es[i]);
    AlwaysAsked(ws, es, i, j);
    NextJob(ws[i], es[i], j);
    WriteShows(ws[i].jobs[j], k, ws[i].remote);
  }

  lemma ActInJobs(w: World, e: Event)
    requires Possible(w, e) && e.Act?
    ensures e.job in w.jobs
  {
    hide Enabled;
  }

  lemma WriteIs(s: JobState, k: nat, remote: Remote)
    requires Enabled(s, Monitor(k, WriteRow), remote)
    ensures k in s.threads && s.threads[k].pc.FinishWrite? && Step(s, Monitor(k, WriteRow), remote) == WriteRowStep(s, k)
  {
    hide WriteRowStep;
  }

  lemma WriteShows(s: JobState, k: nat, remote: Remote)
    requires Asked(s) && Enabled(s, Monitor(k, WriteRow), remote)
    ensures var row, after := s.row, Step(s, Monitor(k, WriteRow), remote).row;
      after == row || ((after.status == CancelRequested <==> row.cancelRequested) && (after.status in {WaitingKernel, DownloadingOutput, CancelRequested}))
  {
    hide Asked, MonitoredRow, Terminal, Enabled, Step, MonitorAsked;
    WriteIs(s, k, remote);
    var pc := s.threads[k].pc;
    ThreadAsked(s, k);
    if s.row.status == pc.seen {
      WrittenRow(s.row, pc);
      assert WriteRowStep(s, k).row == MonitoredRow(s.row, pc);
      ShownAsAsked(s.row, pc);
    } else {
      assert WriteRowStep(s, k).row == s.row;
    }
  }

  lemma ShownAsAsked(row: Row, pc: Pc)
    requires pc.FinishWrite? && MonitorAsked(row, pc) && row.status == pc.seen
    ensures pc.next == CancelRequested <==> row.cancelRequested
  {
  }

  // ---- who queues work ----

  /** Every change of the job's queue, by whoever makes it. */
  predicate Queues(s: JobState, a: Action, t: JobState) {
    var bound := !(s.row.dynamic && s.row.pending);
    match a
    case Intake(AssemblyDone(_, _)) => t.queue == if s.row.status == Assembling && bound then s.queue + multiset{ProcessItem} else s.queue
    case Intake(Bind(_)) => t.queue == s.queue + multiset{ProcessItem}
    case Server(Dequeue(item, _)) => item in s.queue && t.queue == s.queue - multiset{item}
    case Server(SkipItem(item)) => item in s.queue && t.queue == s.queue - multiset{item}
    case Server(Supersede(item)) => item in s.queue && t.queue == s.queue - multiset{item}
    case Server(ResumeMonitoring) => t.queue == s.queue + multiset{ResumeItem(if s.row.cancelRequested then Canceled else Complete)}
    case Server(ManualRecheck(_)) => t.queue == if s.row.cancelRequested then s.queue else s.queue + multiset{RecheckItem}
    case Server(ClaimRecheck) => t.queue == s.queue + multiset{RecheckItem}
    case Crash(_) => t.queue == multiset{}
    case Recover(_) => Requeued(s.row, t.row, t.queue)
    case _ => t.queue == s.queue
  }

  /** In every execution: assembling or binding a job queues a full run, a recheck request or claim a recheck, and resuming its
      monitoring a monitor up to completion, or up to cancellation if that was asked for; only the worker loop takes
      items out, and after a crash recovery queues the one item that the row calls for. */
  lemma ItemsQueued(ws: seq<World>, es: seq<Event>, i: nat, j: JobId)
    requires Execution(ws, es) && i < |es| && j in ws[i].jobs && JobAction(j, es[i]).Some?
    ensures j in ws[i + 1].jobs && Queues(ws[i].jobs[j], JobAction(j, es[i]).value, ws[i + 1].jobs[j])
  {
    hide Inv, Step, Enabled, Possible, Next, Queues;
    AlwaysHealthy(ws, es, i);
    WorldStep(ws, es, i);
    NextJob(ws[i], es[i], j);
    StepQueues(ws[i].jobs[j], JobAction(j, es[i]).value, ws[i].remote);
  }

  lemma StepQueues(s: JobState, a: Action, remote: Remote)
    requires Inv(s, remote) && Enabled(s, a, remote)
    ensures Queues(s, a, Step(s, a, remote))
  {
    hide Inv, RunStep, MonitorStep, ErrorStep, ChildStep, IntakeStep, ServerStep, CrashStep, RecoverStep, Requeued;
    match a {
      case Run(k, r) => RunKeepsQueue(s, k, r, remote);
      case Monitor(k, m) => MonitorKeepsQueue(s, k, m);
      case Err(k, e) => ErrorKeepsQueue(s, k, e);
      case Upload(c, u) => ChildKeepsQueue(s, c, u);
      case Intake(i) => IntakeQueues(s, i);
      case Server(q) => ServerQueues(s, q);
      case Crash(kind) => CrashQueues(s, kind);
      case Recover(o) => RecoveryDecides(s, o, remote);
    }
  }

  lemma TransitionKeepsQueue(s: JobState, k: nat, expected: set<Status>, status: Status, progress: int, next: Pc)
    requires k in s.threads
    ensures Transition(s, k, expected, status, progress, next).queue == s.queue
  {
    hide Matches, UpdateJob, CancelSeen;
    if Matches(s.row, expected, true) { } else { }
  }

  lemma RunKeepsQueue(s: JobState, k: nat, a: RunAction, remote: Remote)
    requires k in s.threads && RunEnabled(s, k, a, remote)
    ensures RunStep(s, k, a, remote).queue == s.queue
  {
    hide RunEnabled, CacheStep, UploadStep, SubmitStep;
    if CachePath(a) { CacheKeepsQueue(s, k, a, remote); }
    else if UploadPath(a) { UploadKeepsQueue(s, k, a, remote); }
    else { SubmitKeepsQueue(s, k, a, remote); }
  }

  lemma CacheKeepsQueue(s: JobState, k: nat, a: RunAction, remote: Remote)
    requires k in s.threads && RunEnabled(s, k, a, remote) && CachePath(a)
    ensures CacheStep(s, k, a, remote).queue == s.queue
  {
    hide Serves, AcquirePc, CancelSeen, Transition, Pinned, Rewritten;
    match a {
      case Acquire(_) =>
      case VerifyCached =>
      case PinCached =>
      case RecordCached =>
    }
  }

  lemma UploadKeepsQueue(s: JobState, k: nat, a: RunAction, remote: Remote)
    requires k in s.threads && RunEnabled(s, k, a, remote) && UploadPath(a)
    ensures UploadStep(s, k, a, remote).queue == s.queue
  {
    hide Serves, CancelSeen, Transition;
    var pc := s.threads[k].pc;
    match a {
      case Prepare =>
        if pc.saved.Some? { TransitionKeepsQueue(s, k, {Queued}, WaitingDataset, 35, Verify(pc.saved.value)); }
        else { TransitionKeepsQueue(s, k, {Queued, UploadingDataset, WaitingDataset}, UploadingDataset, 20, Uploading); }
      case ReuseIntent =>
      case StartUpload(_, _) =>
      case UploadReturned =>
      case GiveUpUpload =>
      case AfterUpload => TransitionKeepsQueue(s, k, {UploadingDataset}, WaitingDataset, 35, Verify(pc.receipt));
    }
  }

  lemma SubmitKeepsQueue(s: JobState, k: nat, a: RunAction, remote: Remote)
    requires k in s.threads && RunEnabled(s, k, a, remote) && !CachePath(a) && !UploadPath(a)
    ensures SubmitStep(s, k, a, remote).queue == s.queue
  {
    hide Serves, Pinned, Rewritten, CancelSeen, Transition;
    var pc := s.threads[k].pc;
    match a {
      case VerifyBytes =>
      case RecordVerified =>
      case PinVersion =>
      case Submit => TransitionKeepsQueue(s, k, {Queued, WaitingDataset}, PushingKernel, 45, Push(pc.receipt));
      case PushCall(_) =>
    }
  }

  lemma MonitorKeepsQueue(s: JobState, k: nat, a: MonitorAction)
    requires k in s.threads && MonitorEnabled(s.threads[k], a)
    ensures MonitorStep(s, k, a).queue == s.queue
  {
    hide ReadRowStep, WriteRowStep, Max, Finalize, LostRow, UpdateJob;
    match a {
      case ReadRow(target, floor) => ReadKeepsQueue(s, k, target, floor);
      case WriteRow => WriteKeepsQueue(s, k);
      case _ =>
    }
  }

  lemma ReadKeepsQueue(s: JobState, k: nat, target: Status, floor: int)
    requires k in s.threads && s.threads[k].pc.Finish?
    ensures ReadRowStep(s, k, target, floor).queue == s.queue
  {
    hide CancelSeen, Max;
    if Terminal(s.row.status) { } else { }
  }

  lemma WriteKeepsQueue(s: JobState, k: nat)
    requires k in s.threads && s.threads[k].pc.FinishWrite?
    ensures WriteRowStep(s, k).queue == s.queue
  {
    hide MonitoredRow;
    if s.row.status == s.threads[k].pc.seen { } else { }
  }

  lemma ErrorKeepsQueue(s: JobState, k: nat, a: ErrorAction)
    requires k in s.threads && ErrorEnabled(s, k, a)
    ensures ErrorStep(s, k, a).queue == s.queue
  {
    hide UpdateJob, Finalize, UpdateIfStatus, CancelSeen, Get;
  }

  lemma ChildKeepsQueue(s: JobState, c: nat, a: ChildAction)
    requires c in s.children && ChildEnabled(s, c, a)
    ensures ChildStep(s, c, a).queue == s.queue
  {
  }

  lemma IntakeQueues(s: JobState, a: IntakeAction)
    requires IntakeEnabled(s, a)
    ensures Queues(s, Intake(a), IntakeStep(s, a))
  {
    hide UpdateJob, UpdateIfStatus, Deduct, RewriteOwner;
  }

  lemma ServerQueues(s: JobState, a: ServerAction)
    requires ServerEnabled(s, a)
    ensures Queues(s, Server(a), ServerStep(s, a))
  {
    hide UpdateJob, UpdateIfStatus, CancelUpdate, Retainable, Runnable;
  }

  lemma CrashQueues(s: JobState, kind: CrashKind)
    ensures CrashStep(s, kind).queue == multiset{}
  {
  }

  // ---- requests ----

  /** What the request handlers write: a cancellation is recorded, and ends a job at once that no worker has taken up yet; a
      callback shows the kernel as running, or as being canceled if that was asked for; a recheck takes the retained
      candidate back to the queue. */
  predicate Requested(s: JobState, a: ServerAction, t: JobState) {
    var row := s.row;
    match a
    case RequestCancel =>
      t.row == if row.status in {Receiving, Assembling, Queued} then row.(cancelRequested := true, status := Canceled, error := OtherError, reserved := 0)
               else row.(cancelRequested := true, status := CancelRequested, error := NoError)
    case Callback(_, p) =>
      && t.row == row.(status := t.row.status, progress := p) && row.progress <= p && (row.progress < p ==> p <= 80)
      && (Terminal(row.status) ==> t.row.status == row.status)
      && (!Terminal(row.status) && !row.cancelRequested ==> t.row.status == WaitingKernel)
      && (!Terminal(row.status) && row.cancelRequested && row.status != WaitingDataset ==> t.row.status == CancelRequested)
    case ResumeMonitoring => t.row == row.(error := NoError)
    case ManualRecheck(_) => t.row == if row.cancelRequested then row else row.(status := Queued, error := NoError, recheck := Checking)
    case ClaimRecheck => t.row == row.(status := Queued, error := NoError, recheck := Checking)
    case PlanRecheck(r) => t.row == row.(recheck := r)
    case _ => t.row == row
  }

  /** In every execution the request handlers, the worker loop and the scanner write exactly that. */
  lemma RequestsDecide(ws: seq<World>, es: seq<Event>, i: nat, j: JobId)
    requires Execution(ws, es) && i < |es| && es[i].Act? && es[i].job == j && es[i].action.Server?
    ensures j in ws[i].jobs && j in ws[i + 1].jobs && Requested(ws[i].jobs[j], es[i].action.request, ws[i + 1].jobs[j])
  {
    hide Step, Enabled, Possible, Next, Requested;
    WorldStep(ws, es, i);
    ActInJobs(ws[i], es[i]);
    NextJob(ws[i], es[i], j);
    ServerRequested(ws[i].jobs[j], es[i].action.request, ws[i].remote);
  }

  lemma ServerRequested(s: JobState, a: ServerAction, remote: Remote)
    requires Enabled(s, Server(a), remote)
    ensures Requested(s, a, Step(s, Server(a), remote))
  {
    hide Retainable, Runnable, ServerEnabled, Requested, ServerStep;
    assert ServerEnabled(s, a);
    match a {
      case RequestCancel => CancelWritten(s);
      case Callback(target, p) => CallbackWritten(s, target, p);
      case ManualRecheck(_) => RecheckWritten(s, a);
      case ClaimRecheck => RecheckWritten(s, a);
      case PlanRecheck(r) => PlanWritten(s, r);
      case _ => RowKeptOrResumed(s, a);
    }
  }

  lemma CancelWritten(s: JobState)
    requires ServerEnabled(s, RequestCancel)
    ensures Requested(s, RequestCancel, ServerStep(s, RequestCancel))
  {
  }

  lemma CallbackWritten(s: JobState, target: Status, p: int)
    requires ServerEnabled(s, Callback(target, p))
    ensures Requested(s, Callback(target, p), ServerStep(s, Callback(target, p)))
  {
  }

  lemma RecheckWritten(s: JobState, a: ServerAction)
    requires ServerEnabled(s, a) && (a.ManualRecheck? || a.ClaimRecheck?)
    ensures Requested(s, a, ServerStep(s, a))
  {
    hide Retainable;
  }

  lemma PlanWritten(s: JobState, r: Recheck)
    requires ServerEnabled(s, PlanRecheck(r))
    ensures Requested(s, PlanRecheck(r), ServerStep(s, PlanRecheck(r)))
  {
  }

  lemma RowKeptOrResumed(s: JobState, a: ServerAction)
    requires ServerEnabled(s, a) && !a.RequestCancel? && !a.Callback? && !a.ManualRecheck? && !a.ClaimRecheck? && !a.PlanRecheck?
    ensures Requested(s, a, ServerStep(s, a))
  {
    hide ServerEnabled;
  }
}
