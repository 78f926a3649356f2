/** Whether a queued job can be forgotten: the worker loop drops items of jobs that are already active,
    and a requeue adds exactly one item. */
module QueuedWork {
  import opened Options
  import opened Database
  import opened KaggleRefs
  import opened JobProtocol
  import opened JobInvariants
  import opened RelayRuns
  import opened JobOutcomes

  /** A queued, bound job has an item in the queue (or parked) or a worker. */
  predicate Carried(s: JobState) {
    s.row.status.Queued? && !AwaitingAssignment(s.row) && !s.recovering ==> s.threads != map[] || Runnable(s.queue)
  }

  /** No worker of a queued job is about to leave without ending it. */
  predicate NoneLeaving(s: JobState) {
    s.row.status.Queued? ==> forall k :: k in s.threads ==> !s.threads[k].pc.RetainSchedule?
  }

  /** No worker is interrupted, and a manual recheck only reaches jobs without a worker. */
  predicate Calm(s: JobState, a: Action) {
    && !(a.Err? && a.err.Interrupt?)
    && (a.Server? && a.request.ManualRecheck? ==> !s.active)
  }

  lemma StepCarried(s: JobState, a: Action, remote: Remote)
    requires Inv(s, remote) && Enabled(s, a, remote) && Carried(s) && NoneLeaving(s) && Calm(s, a)
    ensures var t := Step(s, a, remote); Carried(t) && NoneLeaving(t)
  {
    hide RunStep, MonitorStep, ErrorStep, ChildStep, IntakeStep, ServerStep, CrashStep, RecoverStep, Inv, Carried, NoneLeaving;
    match a {
      case Run(k, r) => RunCarried(s, k, r, remote);
      case Monitor(k, m) => MonitorCarried(s, k, m, remote);
      case Err(k, e) => ErrorCarried(s, k, e, remote);
      case Upload(c, u) => ChildCarried(s, c, u);
      case Intake(i) => IntakeCarried(s, i, remote);
      case Server(r) => ServerCarried(s, r, remote);
      case Crash(kind) => CrashCarried(s, kind);
      case Recover(o) => RecoverCarried(s, o, remote);
    }
  }

  /** The worker stays, not about to leave, or the job is no longer queued. */
  lemma StillWorked(s: JobState, k: nat, t: JobState)
    requires k in s.threads && s.threads == map[k := s.threads[k]] && k in t.threads && t.threads == s.threads[k := t.threads[k]]
    requires t.row.status.Queued? ==> !t.threads[k].pc.RetainSchedule?
    ensures Carried(t) && NoneLeaving(t)
  {
  }

  lemma NotQueued(t: JobState)
    requires !t.row.status.Queued?
    ensures Carried(t) && NoneLeaving(t)
  {
  }

  lemma TransitionCarried(s: JobState, k: nat, expected: set<Status>, status: Status, progress: int, next: Pc)
    requires k in s.threads && s.threads == map[k := s.threads[k]] && !next.RetainSchedule?
    ensures var t := Transition(s, k, expected, status, progress, next); Carried(t) && NoneLeaving(t)
  {
    hide Carried, NoneLeaving, CancelSeen;
    var t := Transition(s, k, expected, status, progress, next);
    if Matches(s.row, expected, true) { StillWorked(s, k, t); } else { StillWorked(s, k, t); }
  }

  lemma RunCarried(s: JobState, k: nat, a: RunAction, remote: Remote)
    requires Inv(s, remote) && k in s.threads && RunEnabled(s, k, a, remote)
    ensures var t := RunStep(s, k, a, remote); Carried(t) && NoneLeaving(t)
  {
    hide Carried, NoneLeaving, CancelSeen, Rewritten, Pinned, Serves, Transition, UpdateJob, Inv, PinStep;
    ThreadFacts(s, k, remote);
    var t, pc := RunStep(s, k, a, remote), s.threads[k].pc;
    match a {
      case Prepare =>
        if pc.saved.Some? { TransitionCarried(s, k, {Queued}, WaitingDataset, 35, Verify(pc.saved.value)); }
        else { TransitionCarried(s, k, {Queued, UploadingDataset, WaitingDataset}, UploadingDataset, 20, Uploading); }
      case AfterUpload => TransitionCarried(s, k, {UploadingDataset}, WaitingDataset, 35, Verify(pc.receipt));
      case Submit => SubmitCarried(s, k, pc.receipt);
      case Acquire(_) => StillWorked(s, k, t);
      case VerifyCached => StillWorked(s, k, t);
      case PinCached => StillWorked(s, k, t);
      case RecordCached => StillWorked(s, k, t);
      case ReuseIntent => StillWorked(s, k, t);
      case StartUpload(_, _) => StillWorked(s, k, t);
      case UploadReturned => StillWorked(s, k, t);
      case GiveUpUpload => StillWorked(s, k, t);
      case VerifyBytes => StillWorked(s, k, t);
      case RecordVerified => StillWorked(s, k, t);
      case PinVersion => PinCarried(s, k, pc.receipt);
      case PushCall(_) => StillWorked(s, k, t);
    }
  }

  lemma PinCarried(s: JobState, k: nat, r: Receipt)
    requires k in s.threads && s.threads == map[k := s.threads[k]]
    ensures var t := PinStep(s, k, r); Carried(t) && NoneLeaving(t)
  {
    hide Carried, NoneLeaving, Pinned;
    if CancelSeen(s.row) { StillWorked(s, k, PinStep(s, k, r)); } else { StillWorked(s, k, PinStep(s, k, r)); }
  }

  lemma SubmitCarried(s: JobState, k: nat, r: Receipt)
    requires k in s.threads && s.threads == map[k := s.threads[k]]
    ensures var t := Transition(s, k, {Queued, WaitingDataset}, PushingKernel, 45, Push(r));
      Carried(t.(entered := s.entered || t.threads[k].pc.Push?)) && NoneLeaving(t.(entered := s.entered || t.threads[k].pc.Push?))
  {
    TransitionCarried(s, k, {Queued, WaitingDataset}, PushingKernel, 45, Push(r));
  }

  lemma MonitorCarried(s: JobState, k: nat, a: MonitorAction, remote: Remote)
    requires Inv(s, remote) && k in s.threads && MonitorEnabled(s.threads[k], a)
    ensures var t := MonitorStep(s, k, a); Carried(t) && NoneLeaving(t)
  {
    hide Carried, NoneLeaving, CancelSeen, Inv, Finalize;
    ThreadFacts(s, k, remote);
    var t, pc := MonitorStep(s, k, a), s.threads[k].pc;
    match a {
      case ReadRow(_, _) => if Terminal(s.row.status) { StillWorked(s, k, t); } else { StillWorked(s, k, t); }
      case WriteRow => if s.row.status == pc.seen { StillWorked(s, k, t); } else { StillWorked(s, k, t); }
      case RecordOutput => StillWorked(s, k, t);
      case Deliver => FinalizedEnds(s.row, pc.final, Update(progress := Some(100), error := Some(NoError))); NotQueued(t);
      case LoseMonitor => NotQueued(t);
    }
  }

  lemma FinalizedEnds(row: Row, preferred: Status, u: Update)
    requires Terminal(preferred)
    ensures !Finalize(row, preferred, u).status.Queued?
  {
  }

  lemma ErrorCarried(s: JobState, k: nat, a: ErrorAction, remote: Remote)
    requires Inv(s, remote) && k in s.threads && ErrorEnabled(s, k, a) && NoneLeaving(s) && !a.Interrupt?
    ensures var t := ErrorStep(s, k, a); Carried(t) && NoneLeaving(t)
  {
    hide Carried, CancelSeen, Inv, Finalize, Get;
    ThreadFacts(s, k, remote);
    var t := ErrorStep(s, k, a);
    match a {
      case Raise => StillWorked(s, k, t);
      case NoticeCancel => StillWorked(s, k, t);
      case Handle(_, _) => StillWorked(s, k, t);
      case Retain => NotQueued(t);
      case Schedule(_) => NotQueued(t);
      case Fail => FinalizedEnds(s.row, Failed, Update(progress := Some(0), error := Some(OtherError))); NotQueued(t);
      case Cancel => FinalizedEnds(s.row, Canceled, Update(error := Some(OtherError))); NotQueued(t);
    }
  }

  lemma SameCarried(s: JobState, t: JobState)
    requires Carried(s) && NoneLeaving(s) && t.row == s.row && t.threads == s.threads && t.queue == s.queue && t.recovering == s.recovering
    ensures Carried(t) && NoneLeaving(t)
  {
  }

  lemma ChildCarried(s: JobState, c: nat, a: ChildAction)
    requires c in s.children && ChildEnabled(s, c, a) && Carried(s) && NoneLeaving(s)
    ensures var t := ChildStep(s, c, a); Carried(t) && NoneLeaving(t)
  {
    hide Carried, NoneLeaving;
    var t := ChildStep(s, c, a);
    match a {
      case Rename => SameCarried(s, t);
      case SyncIntent => SameCarried(s, t);
      case RemoteCall => SameCarried(s, t);
      case Respond(_) => SameCarried(s, t);
      case SyncOutcome => SameCarried(s, t);
    }
  }

  lemma Idle(t: JobState)
    requires t.threads == map[] && (t.row.status.Queued? && !AwaitingAssignment(t.row) ==> Runnable(t.queue))
    ensures Carried(t) && NoneLeaving(t)
  {
  }

  lemma IntakeCarried(s: JobState, a: IntakeAction, remote: Remote)
    requires Inv(s, remote) && IntakeEnabled(s, a)
    ensures var t := IntakeStep(s, a); Carried(t) && NoneLeaving(t)
  {
    hide Carried, NoneLeaving, Files, Children, Threads, History, RowOk, RewriteOwner;
    var t := IntakeStep(s, a);
    match a {
      case StartAssembly => NotQueued(t);
      case Reserve(_) => NotQueued(t);
      case Consume(_) => NotQueued(t);
      case AssemblyDone(_, _) => Idle(t);
      case AssemblyFull => NotQueued(t);
      case AssemblyFailed => NotQueued(t);
      case CommitChunk(_) => NotQueued(t);
      case ExpireUpload => NotQueued(t);
      case Bind(_) => Idle(t);
      case RejectBinding => NotQueued(t);
    }
  }

  lemma ServerCarried(s: JobState, a: ServerAction, remote: Remote)
    requires Inv(s, remote) && ServerEnabled(s, a) && Carried(s) && NoneLeaving(s) && (a.ManualRecheck? ==> !s.active)
    ensures var t := ServerStep(s, a); Carried(t) && NoneLeaving(t)
  {
    hide Carried, NoneLeaving, Files, Children, Threads, History, RowOk, Retainable;
    var t := ServerStep(s, a);
    match a {
      case Dequeue(item, k) => Dequeued(s, item, k);
      case SkipItem(item) => Skipped(s, item);
      case Supersede(item) => Superseded(s, item);
      case RequestCancel => NotQueued(t);
      case Callback(_, _) => NotQueued(t);
      case ResumeMonitoring => NotQueued(t);
      case ManualRecheck(_) => assert s.threads == map[]; Requeued(s);
      case ClaimRecheck => assert s.threads == map[]; Requeued(s);
      case PlanRecheck(_) => NotQueued(t);
      case ChangeLocal(_) => SameCarried(s, t);
    }
  }

  lemma Dequeued(s: JobState, item: Item, k: nat)
    requires Exclusive(s) && ServerEnabled(s, Dequeue(item, k))
    ensures var t := ServerStep(s, Dequeue(item, k)); Carried(t) && NoneLeaving(t)
  {
  }

  /** Only items the job no longer needs are dropped. */
  lemma Skipped(s: JobState, item: Item)
    requires Exclusive(s) && ServerEnabled(s, SkipItem(item)) && Carried(s) && NoneLeaving(s)
    ensures var t := ServerStep(s, SkipItem(item)); Carried(t) && NoneLeaving(t)
  {
    hide AwaitingAssignment;
    assert item.ResumeItem? ==> (s.queue - multiset{item})[ProcessItem] == s.queue[ProcessItem];
  }

  lemma Superseded(s: JobState, item: Item)
    requires ServerEnabled(s, Supersede(item)) && NoneLeaving(s)
    ensures var t := ServerStep(s, Supersede(item)); Carried(t) && NoneLeaving(t)
  {
    hide AwaitingAssignment;
  }

  lemma Requeued(s: JobState)
    requires s.threads == map[] && s.row.status.WaitingDataset?
    ensures var t := Requeue(s); Carried(t) && NoneLeaving(t)
  {
    hide Matches, AwaitingAssignment;
  }

  lemma CrashCarried(s: JobState, kind: CrashKind)
    ensures var t := CrashStep(s, kind); Carried(t) && NoneLeaving(t)
  {
  }

  lemma Enqueues(s: JobState, item: Item)
    requires s.threads == map[] && !item.ResumeItem?
    ensures var t := RecoverEnqueue(s, item); Carried(t) && NoneLeaving(t)
  {
  }

  lemma CandidateCarried(s: JobState, o: Observed)
    requires s.threads == map[] && !s.row.status.Queued?
    ensures var t := RecoverCandidate(s, o); Carried(t) && NoneLeaving(t)
  {
    hide Carried, NoneLeaving, Get, AwaitingAssignment, RecoverEnqueue;
    Enqueues(s.(row := UpdateJob(s.row, Update(status := Some(Queued), error := Some(NoError)))), RunItem(s.row));
    NotQueued(s);
    NotQueued(RecoverFail(s));
  }

  lemma RecoverCarried(s: JobState, o: Observed, remote: Remote)
    requires Inv(s, remote) && s.recovering
    ensures var t := RecoverStep(s, o); Carried(t) && NoneLeaving(t)
  {
    hide Carried, NoneLeaving, Fresh, Files, Children, Threads, History, RowOk, RecoverEnqueue, RecoverFail, RecoverCandidate, RecoverCancel, RecoverAssembly, RunItem;
    var t, u := RecoverStep(s, o), s.(recovering := false);
    match s.row.status {
      case Queued => RunnableItem(s.row); Enqueues(u, RunItem(s.row));
      case WaitingKernel => NotQueued(t);
      case DownloadingOutput => NotQueued(t);
      case CancelRequested => CancelNotQueued(u, o); NotQueued(t);
      case PushingKernel => FailNotQueued(u); NotQueued(t);
      case UploadingDataset => CandidateCarried(u, o);
      case WaitingDataset => CandidateCarried(u, o); NotQueued(u);
      case Assembling => AssemblyCarried(u, o);
    }
  }

  lemma RunnableItem(row: Row)
    ensures !RunItem(row).ResumeItem?
  {
  }

  lemma CancelNotQueued(s: JobState, o: Observed)
    requires s.row.status.CancelRequested?
    ensures !RecoverCancel(s, o).row.status.Queued?
  {
    hide RecoverCancel;
    CanceledRow(s, o);
  }

  lemma FailNotQueued(s: JobState)
    ensures !RecoverFail(s).row.status.Queued?
  {
  }

  lemma AssemblyCarried(s: JobState, o: Observed)
    requires s.threads == map[] && s.row.status.Assembling?
    ensures var t := RecoverAssembly(s, o); Carried(t) && NoneLeaving(t)
  {
    hide Carried, NoneLeaving, RecoverEnqueue, AwaitingAssignment;
    NotQueued(RecoverFail(s));
    Enqueues(s.(row := UpdateJob(s.row, Update(status := Some(Queued), progress := Some(15), error := Some(NoError), reserved := Some(o.reserved))),
                local := o.content, sources := o.metadata), ProcessItem);
  }

  // ---- whole runs ----

  ghost predicate CalmRun(ws: seq<World>, es: seq<Event>) {
    && Execution(ws, es)
    && forall i :: 0 <= i < |es| && es[i].Act? && es[i].job in ws[i].jobs ==> Calm(ws[i].jobs[es[i].job], es[i].action)
  }

  /** One event of the whole service, for one of its jobs. */
  lemma NextCarried(w: World, e: Event, j: JobId)
    requires Healthy(w) && Possible(w, e) && j in Next(w, e).jobs
    requires j in w.jobs ==> Carried(w.jobs[j]) && NoneLeaving(w.jobs[j]) && (e.Act? && e.job == j ==> Calm(w.jobs[j], e.action))
    ensures Carried(Next(w, e).jobs[j]) && NoneLeaving(Next(w, e).jobs[j])
  {
    hide Inv, Next, Possible, Step, Enabled, Carried, NoneLeaving, Calm, Created;
    if j in w.jobs {
      NextJob(w, e, j);
      if JobAction(j, e).Some? {
        CrashIsCalm(w.jobs[j], JobAction(j, e).value);
        StepCarried(w.jobs[j], JobAction(j, e).value, w.remote);
      }
    } else {
      NewJob(w, e, j);
    }
  }

  /** In every run without worker interruption in which manual rechecks reach only inactive jobs, every bound
      queued job always has an item or a worker, across crashes and restarts. */
  lemma {:induction false} NoQueuedJobIsForgotten(ws: seq<World>, es: seq<Event>, j: JobId, i: nat)
    requires CalmRun(ws, es) && i < |ws| && j in ws[i].jobs
    ensures Carried(ws[i].jobs[j]) && NoneLeaving(ws[i].jobs[j])
  {
    hide Inv, Next, Possible, Carried, NoneLeaving, Calm;
    assert i > 0;
    if j in ws[i - 1].jobs { NoQueuedJobIsForgotten(ws, es, j, i - 1); }
    AlwaysHealthy(ws, es, i - 1);
    NextCarried(ws[i - 1], es[i - 1], j);
  }

  lemma CrashIsCalm(s: JobState, a: Action)
    ensures a.Crash? ==> Calm(s, a)
  {
  }

  lemma NewJob(w: World, e: Event, j: JobId)
    requires Possible(w, e) && j !in w.jobs && j in Next(w, e).jobs
    ensures Carried(Next(w, e).jobs[j]) && NoneLeaving(Next(w, e).jobs[j])
  {
    hide CrashStep, Step, Enabled;
  }

  // ---- the manual recheck of an active job ----

  lemma RequeuedRow(s: JobState)
    requires s.row.status.WaitingDataset? && !s.row.cancelRequested
    ensures var t := Requeue(s); t.row.status.Queued? && AwaitingAssignment(t.row) == AwaitingAssignment(s.row)
    ensures Requeue(s).queue == s.queue + multiset{RecheckItem}
  {
  }

  /** Exactly the family the condition shuts out: the worker has recorded the retained candidate and is about to
      leave.  A manual recheck then queues the job, the worker loop drops the new item because the job is still
      active, and the worker leaves: the job stays queued with no item and no worker. */
  lemma RecheckOfActiveJobStrands(s: JobState, k: nat, restart: bool, plan: Recheck, remote: Remote)
    requires Inv(s, remote) && k in s.threads && s.threads[k].pc.RetainSchedule? && s.queue == multiset{}
    requires ServerEnabled(s, ManualRecheck(restart)) && !s.row.cancelRequested
    requires plan == Scheduled || plan == Exhausted || plan == Blocked
    ensures Enabled(s, Server(ManualRecheck(restart)), remote)
    ensures var s1 := Step(s, Server(ManualRecheck(restart)), remote);
      && Enabled(s1, Server(SkipItem(RecheckItem)), remote)
      && var s2 := Step(s1, Server(SkipItem(RecheckItem)), remote);
      && Enabled(s2, Err(k, Schedule(plan)), remote)
      && var s3 := Step(s2, Err(k, Schedule(plan)), remote);
      !Carried(s3) && s3.row.status.Queued? && s3.queue == multiset{} && s3.threads == map[]
  {
    hide Inv, Retainable;
    ThreadFacts(s, k, remote);
    RequeuedRow(s);
    var s1 := Requeue(s);
    assert s1.queue == multiset{RecheckItem};
    assert s1.queue - multiset{RecheckItem} == multiset{};
    assert s1.threads - {k} == map[];
  }
}
