/** What the service decides about a job, stated over what it can see: its row, its intent files and the outside.
    Nothing here is said in terms of the step functions; the lemmas hold of them in every execution. */
module JobDecisions {
  import opened Options
  import opened Database
  import opened KaggleRefs
  import opened JobProtocol
  import opened JobInvariants
  import opened JobOnward
  import opened RelayRuns

  // ---- restart recovery ----

  /** The service knows which candidate it uploaded, and that Kaggle did not refuse it. */
  predicate UsableIntent(s: JobState, readable: bool) {
    readable && s.row.datasetRef in s.view && s.view[s.row.datasetRef].state in {Unknown, Accepted}
  }

  /** The run was interrupted between upload and push, and no recheck of a retained candidate is planned. */
  predicate Interrupted(row: Row) {
    || row.status == UploadingDataset
    || (row.status == WaitingDataset && (row.recheck == Checking || (row.recheck == NoRecheck && row.error != RetainedCandidate)))
  }

  /** Restart fails a job in exactly these situations. */
  predicate LostAtRestart(row: Row, usable: bool, o: Observed) {
    || (row.status == PushingKernel && o.probe != Visible)
    || (Interrupted(row) && !usable)
    || (row.status == Assembling && !o.assembled)
    || (row.status == CancelRequested && 45 <= row.progress < 60 && !o.pushLogged && o.probe == ProbeError)
  }

  /** The kernel of a canceled job was certainly not submitted. */
  predicate NeverSubmitted(row: Row, o: Observed) {
    row.status == CancelRequested && row.progress < 60 && !o.pushLogged && (row.progress < 45 || o.probe == NotFound)
  }

  /** The job can be run again. */
  predicate RunsAgain(row: Row, usable: bool, o: Observed) {
    row.status == Queued || (row.status == Assembling && o.assembled) || (Interrupted(row) && usable && !row.cancelRequested)
  }

  /** The row that restart recovery leaves. */
  predicate Decided(row: Row, usable: bool, o: Observed, after: Row) {
    && (after.status == Failed <==> LostAtRestart(row, usable, o))
    && (after.status == Canceled <==> NeverSubmitted(row, o))
    && (after.status == Queued <==> RunsAgain(row, usable, o))
    && (after.status == Failed ==> after == row.(status := Failed, progress := 0, error := OtherError, reserved := 0))
    && (after.status == Canceled ==> after == row.(status := Canceled, error := OtherError, reserved := 0))
    && (after.status == Queued && Interrupted(row) ==> after == row.(status := Queued, error := NoError))
    && (after.status == Queued && row.status == Assembling ==>
          after == row.(status := Queued, progress := 15, error := NoError, reserved := o.reserved))
    && (row.status == Queued || after.status !in {Failed, Canceled, Queued} ==> after == row)
  }

  /** The one item that is queued for the job, if any: a pushed kernel is monitored, a canceled one up to its
      cancellation, an interrupted recheck is made again as a recheck, and any other run as a full one. */
  predicate Requeued(row: Row, after: Row, queue: multiset<Item>) {
    && (after.status in {PushingKernel, WaitingKernel, DownloadingOutput} ==> queue == multiset{ResumeItem(Complete)})
    && (after.status == CancelRequested ==> queue == multiset{ResumeItem(Canceled)})
    && (after.status == Queued && row.dynamic && row.pending ==> queue == multiset{})
    && (after.status == Queued && !(row.dynamic && row.pending) ==>
          queue == if row.recheck == Checking && row.status != Assembling then multiset{RecheckItem} else multiset{ProcessItem})
    && (after.status in {UploadingDataset, WaitingDataset, Failed, Canceled} ==> queue == multiset{})
  }

  predicate Resumes(s: JobState, o: Observed, t: JobState) {
    && Decided(s.row, UsableIntent(s, o.readable), o, t.row)
    && Requeued(s.row, t.row, t.queue)
    && (s.row.status == Assembling && o.assembled ==> t.local == o.content && t.sources == o.metadata)
    && (!(s.row.status == Assembling && o.assembled) ==> t.local == s.local && t.sources == s.sources)
    && t == s.(recovering := false, row := t.row, queue := t.queue, local := t.local, sources := t.sources)
  }

  /** In every execution, restart recovery decides about each job by its row, its intent and what it observes, as said above. */
  lemma RestartDecides(ws: seq<World>, es: seq<Event>, j: JobId, b: nat, o: Observed)
    requires Execution(ws, es) && b < |es| && es[b] == Act(j, Recover(o))
    ensures j in ws[b].jobs && j in ws[b + 1].jobs && Resumes(ws[b].jobs[j], o, ws[b + 1].jobs[j])
  {
    hide Inv, Next, Step, Enabled, Resumes;
    AlwaysHealthy(ws, es, b);
    NextJob(ws[b], es[b], j);
    RecoveryDecides(ws[b].jobs[j], o, ws[b].remote);
  }

  lemma RecoveryDecides(s: JobState, o: Observed, remote: Remote)
    requires Inv(s, remote) && Enabled(s, Recover(o), remote)
    ensures Resumes(s, o, Step(s, Recover(o), remote))
  {
    hide Inv, RecoverStep, Resumes;
    AtRestart(s, remote);
    match s.row.status {
      case PushingKernel => PushingDecides(s, o);
      case CancelRequested => CancelDecides(s, o);
      case UploadingDataset => CandidateDecides(s, o);
      case WaitingDataset => CandidateDecides(s, o);
      case Assembling => AssemblyDecides(s, o);
      case _ => RequeueDecides(s, o);
    }
  }

  /** What the invariant says about a job that recovery has not looked at yet. */
  predicate AtRest(s: JobState) {
    && s.recovering && s.queue == multiset{} && s.row.status != Receiving && !Terminal(s.row.status)
    && (s.row.dynamic && s.row.pending ==> s.row.status == Queued || s.row.status == Assembling)
    && (s.row.pending ==> s.row.dynamic)
  }

  lemma AtRestart(s: JobState, remote: Remote)
    requires Inv(s, remote) && s.recovering
    ensures AtRest(s)
  {
    hide Files, Children, Threads, History, RowOk, Untouched;
  }

  lemma FailedRow(s: JobState)
    ensures RecoverFail(s) == s.(row := s.row.(status := Failed, progress := 0, error := OtherError, reserved := 0))
  {
  }

  lemma EnqueuedItem(s: JobState, item: Item)
    requires s.queue == multiset{}
    ensures RecoverEnqueue(s, item) == s.(queue := if s.row.dynamic && s.row.pending then multiset{} else multiset{item})
  {
    assert multiset{} + multiset{item} == multiset{item};
  }

  lemma RequeueDecides(s: JobState, o: Observed)
    requires AtRest(s) && (s.row.status == Queued || s.row.status == WaitingKernel || s.row.status == DownloadingOutput)
    ensures Resumes(s, o, RecoverStep(s, o))
  {
    hide RecoverEnqueue;
    var s' := s.(recovering := false);
    EnqueuedItem(s', ProcessItem);
    EnqueuedItem(s', RecheckItem);
    EnqueuedItem(s', ResumeItem(Complete));
  }

  lemma PushingDecides(s: JobState, o: Observed)
    requires AtRest(s) && s.row.status == PushingKernel
    ensures Resumes(s, o, RecoverStep(s, o))
  {
    hide RecoverEnqueue, RecoverFail;
    EnqueuedItem(s.(recovering := false), ResumeItem(Complete));
    FailedRow(s.(recovering := false));
  }

  lemma CanceledRow(row: Row)
    ensures UpdateJob(row, Update(status := Some(Canceled), error := Some(OtherError))) == row.(status := Canceled, error := OtherError, reserved := 0)
  {
  }

  lemma AfterCancel(s: JobState, o: Observed)
    requires s.queue == multiset{} && s.row.status == CancelRequested && !s.row.pending
    ensures var t, p := RecoverCancel(s, o), s.row.progress;
      && t == s.(row := t.row, queue := t.queue)
      && if p >= 60 || o.pushLogged || (p >= 45 && o.probe == Visible) then t.row == s.row && t.queue == multiset{ResumeItem(Canceled)}
         else if p >= 45 && o.probe == ProbeError then t.row == s.row.(status := Failed, progress := 0, error := OtherError, reserved := 0) && t.queue == multiset{}
         else t.row == s.row.(status := Canceled, error := OtherError, reserved := 0) && t.queue == multiset{}
  {
    hide RecoverEnqueue, RecoverFail, UpdateJob;
    EnqueuedItem(s, ResumeItem(Canceled));
    FailedRow(s);
    CanceledRow(s.row);
  }

  lemma CancelBranch(s: JobState, o: Observed)
    requires s.recovering && s.row.status == CancelRequested
    ensures RecoverStep(s, o) == RecoverCancel(s.(recovering := false), o)
  {
    hide RecoverCancel, RecoverAssembly, RecoverCandidate, RecoverEnqueue, RecoverFail;
  }

  lemma CancelDecides(s: JobState, o: Observed)
    requires AtRest(s) && s.row.status == CancelRequested && !s.row.pending
    ensures Resumes(s, o, RecoverStep(s, o))
  {
    hide RecoverCancel, RecoverStep, UsableIntent, Decided, Requeued;
    AfterCancel(s.(recovering := false), o);
    CancelBranch(s, o);
    CanceledIsDecided(s.row, UsableIntent(s, o.readable), o, RecoverStep(s, o).row, RecoverStep(s, o).queue);
  }

  lemma CanceledIsDecided(row: Row, usable: bool, o: Observed, after: Row, queue: multiset<Item>)
    requires row.status == CancelRequested && !row.pending
    requires var p := row.progress;
      if p >= 60 || o.pushLogged || (p >= 45 && o.probe == Visible) then after == row && queue == multiset{ResumeItem(Canceled)}
      else if p >= 45 && o.probe == ProbeError then after == row.(status := Failed, progress := 0, error := OtherError, reserved := 0) && queue == multiset{}
      else after == row.(status := Canceled, error := OtherError, reserved := 0) && queue == multiset{}
    ensures Decided(row, usable, o, after) && Requeued(row, after, queue)
  {
  }

  lemma AgainRow(row: Row)
    ensures UpdateJob(row, Update(status := Some(Queued), error := Some(NoError))) == row.(status := Queued, error := NoError)
  {
  }

  lemma AfterCandidate(s: JobState, o: Observed)
    requires s.queue == multiset{} && (s.row.status == UploadingDataset || s.row.status == WaitingDataset) && !s.row.pending
    ensures var t := RecoverCandidate(s, o);
      && t == s.(row := t.row, queue := t.queue)
      && if !UsableIntent(s, o.readable) then t.row == s.row.(status := Failed, progress := 0, error := OtherError, reserved := 0) && t.queue == multiset{}
         else if s.row.cancelRequested then t.row == s.row && t.queue == multiset{}
         else t.row == s.row.(status := Queued, error := NoError)
              && t.queue == if s.row.recheck == Checking then multiset{RecheckItem} else multiset{ProcessItem}
  {
    hide RecoverEnqueue, RecoverFail, UpdateJob;
    AgainRow(s.row);
    var again := s.(row := s.row.(status := Queued, error := NoError));
    EnqueuedItem(again, ProcessItem);
    EnqueuedItem(again, RecheckItem);
    FailedRow(s);
  }

  lemma CandidateBranch(s: JobState, o: Observed)
    requires s.recovering && (s.row.status == UploadingDataset || s.row.status == WaitingDataset)
    ensures RecoverStep(s, o) == if Interrupted(s.row) then RecoverCandidate(s.(recovering := false), o) else s.(recovering := false)
  {
    hide RecoverCancel, RecoverAssembly, RecoverCandidate, RecoverEnqueue, RecoverFail;
  }

  lemma CandidateDecides(s: JobState, o: Observed)
    requires AtRest(s) && (s.row.status == UploadingDataset || s.row.status == WaitingDataset) && !s.row.pending
    ensures Resumes(s, o, RecoverStep(s, o))
  {
    hide RecoverCandidate, RecoverStep, UsableIntent, Decided, Requeued;
    var s' := s.(recovering := false);
    AfterCandidate(s', o);
    CandidateBranch(s, o);
    SameIntent(s, o.readable);
    CandidateIsDecided(s.row, UsableIntent(s, o.readable), o, RecoverStep(s, o).row, RecoverStep(s, o).queue);
  }

  lemma SameIntent(s: JobState, readable: bool)
    ensures UsableIntent(s.(recovering := false), readable) == UsableIntent(s, readable)
  {
  }

  lemma CandidateIsDecided(row: Row, usable: bool, o: Observed, after: Row, queue: multiset<Item>)
    requires (row.status == UploadingDataset || row.status == WaitingDataset) && !row.pending
    requires if !Interrupted(row) then after == row && queue == multiset{}
      else if !usable then after == row.(status := Failed, progress := 0, error := OtherError, reserved := 0) && queue == multiset{}
      else if row.cancelRequested then after == row && queue == multiset{}
      else after == row.(status := Queued, error := NoError) && queue == if row.recheck == Checking then multiset{RecheckItem} else multiset{ProcessItem}
    ensures Decided(row, usable, o, after) && Requeued(row, after, queue)
  {
  }

  lemma AssemblyDecides(s: JobState, o: Observed)
    requires AtRest(s) && s.row.status == Assembling
    ensures Resumes(s, o, RecoverStep(s, o))
  {
    hide RecoverEnqueue, RecoverFail;
    var s' := s.(recovering := false);
    EnqueuedItem(s'.(row := UpdateJob(s.row, Update(status := Some(Queued), progress := Some(15), error := Some(NoError), reserved := Some(o.reserved))),
                     local := o.content, sources := o.metadata), ProcessItem);
    FailedRow(s');
  }

  // ---- the program of a worker thread ----

  /** From one program point to the next: through the shared cache, or through an own candidate, to the push, and then
      monitoring; a recheck starts from a retained candidate; the exception handler can be entered from anywhere. */
  predicate Goes(kind: Kind, pc: Pc, next: Pc) {
    || InHandler(next)
    || match pc
       case Begin => if kind == RecheckRun then next.Prepared? && next.saved.Some? else next.CacheVerify? || next == Prepared(None)
       case CacheVerify(r) => next == CachePin(r)
       case CachePin(r) => next == CacheRecord(r)
       case CacheRecord(r) => next == Ready(r)
       case Prepared(saved) => if saved.Some? then next == Verify(saved.value) else next == Uploading
       case Uploading => next.AwaitUpload? || next.Uploaded?
       case AwaitUpload(_) => next.Uploaded?
       case Uploaded(r) => next == Verify(r)
       case Verify(r) => next == Record(r)
       case Record(r) => next == Pin(r)
       case Pin(r) => next == Ready(r)
       case Ready(r) => next == Push(r)
       case Push(_) => next == Finish(Complete, 0)
       case Finish(final, _) => (next.Finish? || next.FinishWrite?) && next.final == final
       case FinishWrite(final, _, _, _, _, _) => next.Finish? && next.final == final
       case _ => false
  }

  predicate Moves(s: JobState, t: JobState, k: nat) {
    && (k in t.threads && k !in s.threads ==> t.threads[k].pc.Begin? || t.threads[k].pc.Finish?)
    && (k in s.threads && k in t.threads ==> Moved(s, t, k))
  }

  predicate Moved(s: JobState, t: JobState, k: nat)
    requires k in s.threads && k in t.threads
  {
    && t.threads[k].kind == s.threads[k].kind
    && (t.threads[k].pc == s.threads[k].pc || Goes(s.threads[k].kind, s.threads[k].pc, t.threads[k].pc))
    && (t.threads[k].pc.AwaitUpload? && !s.threads[k].pc.AwaitUpload? ==> s.row.datasetRef !in s.view)
  }

  /** Every step of anybody moves each thread along its program, or leaves it, or ends it. */
  lemma ThreadMoves(s: JobState, a: Action, remote: Remote, k: nat)
    requires Enabled(s, a, remote)
    ensures Moves(s, Step(s, a, remote), k)
  {
    hide RunStep, MonitorStep, ErrorStep, ChildStep, IntakeStep, ServerStep, CrashStep, RecoverStep, Moves;
    match a {
      case Run(q, run) => if q == k { RunMoves(s, k, run, remote); } else { OtherThread(s, q, run, remote, k); KeptMoves(s, Step(s, a, remote), k); }
      case Monitor(q, m) => MonitorMoves(s, q, m, k);
      case Err(q, e) => ErrorMoves(s, q, e, k);
      case Upload(c, u) => ChildThread(s, c, u, k); KeptMoves(s, Step(s, a, remote), k);
      case Intake(i) => IntakeThread(s, i, k); KeptMoves(s, Step(s, a, remote), k);
      case Server(q) => ServerMoves(s, q, k);
      case Crash(kind) => CrashThread(s, kind, k); GoneMoves(s, Step(s, a, remote), k);
      case Recover(o) => RecoverThreads(s, o, k); KeptMoves(s, Step(s, a, remote), k);
    }
  }

  lemma KeptMoves(s: JobState, t: JobState, k: nat)
    requires Kept(s, t, k)
    ensures Moves(s, t, k)
  {
  }

  lemma GoneMoves(s: JobState, t: JobState, k: nat)
    requires k !in t.threads
    ensures Moves(s, t, k)
  {
  }

  lemma RunMoves(s: JobState, k: nat, a: RunAction, remote: Remote)
    requires k in s.threads && RunEnabled(s, k, a, remote)
    ensures Moves(s, RunStep(s, k, a, remote), k)
  {
    hide RunEnabled, CacheStep, UploadStep, SubmitStep, Moves;
    if a.Prepare? || a.AfterUpload? || a.Submit? {
      TransitionMoves(s, k, a, remote);
    } else if CachePath(a) {
      CacheMoves(s, k, a, remote);
    } else if a.ReuseIntent? || a.StartUpload? || a.UploadReturned? || a.GiveUpUpload? {
      UploadMoves(s, k, a, remote);
    } else {
      SubmitMoves(s, k, a, remote);
    }
  }

  lemma TransitionGoes(s: JobState, k: nat, expected: set<Status>, status: Status, progress: int, next: Pc)
    requires k in s.threads && Goes(s.threads[k].kind, s.threads[k].pc, next) && !next.AwaitUpload?
    ensures Moves(s, Transition(s, k, expected, status, progress, next), k)
  {
    hide Matches, UpdateJob, CancelSeen;
    var t := Transition(s, k, expected, status, progress, next);
    if Matches(s.row, expected, true) { assert t.threads[k] == s.threads[k].(pc := next); }
    else { assert InHandler(t.threads[k].pc) && t.threads[k].kind == s.threads[k].kind; }
  }

  lemma TransitionMoves(s: JobState, k: nat, a: RunAction, remote: Remote)
    requires k in s.threads && RunEnabled(s, k, a, remote) && (a.Prepare? || a.AfterUpload? || a.Submit?)
    ensures Moves(s, RunStep(s, k, a, remote), k)
  {
    hide Transition;
    var pc := s.threads[k].pc;
    match a {
      case Prepare =>
        if pc.saved.Some? { TransitionGoes(s, k, {Queued}, WaitingDataset, 35, Verify(pc.saved.value)); }
        else { TransitionGoes(s, k, {Queued, UploadingDataset, WaitingDataset}, UploadingDataset, 20, Uploading); }
      case AfterUpload => TransitionGoes(s, k, {UploadingDataset}, WaitingDataset, 35, Verify(pc.receipt));
      case Submit => TransitionGoes(s, k, {Queued, WaitingDataset}, PushingKernel, 45, Push(pc.receipt));
    }
  }

  lemma CacheMoves(s: JobState, k: nat, a: RunAction, remote: Remote)
    requires k in s.threads && RunEnabled(s, k, a, remote) && CachePath(a)
    ensures Moves(s, CacheStep(s, k, a, remote), k)
  {
    hide Serves, UpdateJob, Pinned, Rewritten, CancelSeen, Get;
  }

  lemma UploadMoves(s: JobState, k: nat, a: RunAction, remote: Remote)
    requires k in s.threads && RunEnabled(s, k, a, remote) && (a.ReuseIntent? || a.StartUpload? || a.UploadReturned? || a.GiveUpUpload?)
    ensures Moves(s, UploadStep(s, k, a, remote), k)
  {
    hide Serves, Transition;
  }

  /** Thread k is moved to a next point of its program, and nothing else is done to the threads. */
  lemma AtMoves(s: JobState, t: JobState, k: nat, next: Pc)
    requires k in s.threads && t.threads == s.threads[k := s.threads[k].(pc := next)]
    requires (next == s.threads[k].pc || Goes(s.threads[k].kind, s.threads[k].pc, next)) && !next.AwaitUpload?
    ensures Moves(s, t, k)
  {
  }

  lemma AfterPin(kind: Kind, r: Receipt)
    ensures Goes(kind, Pin(r), CancelWrite) && Goes(kind, Pin(r), Ready(r))
  {
  }

  lemma PinGoes(s: JobState, k: nat, r: Receipt)
    requires k in s.threads && s.threads[k].pc == Pin(r)
    ensures Moves(s, PinStep(s, k, r), k)
  {
    hide Pinned, CancelSeen, Moves, Goes;
    AfterPin(s.threads[k].kind, r);
    if CancelSeen(s.row) {
      AtMoves(s, PinStep(s, k, r), k, CancelWrite);
    } else {
      AtMoves(s, PinStep(s, k, r), k, Ready(r));
    }
  }

  lemma SubmitMoves(s: JobState, k: nat, a: RunAction, remote: Remote)
    requires k in s.threads && RunEnabled(s, k, a, remote) && (a.VerifyBytes? || a.RecordVerified? || a.PinVersion? || a.PushCall?)
    ensures Moves(s, SubmitStep(s, k, a, remote), k)
  {
    hide Serves, UpdateJob, Pinned, Transition, Get, PinStep, Moves;
    var pc, t := s.threads[k].pc, SubmitStep(s, k, a, remote);
    match a {
      case VerifyBytes => AtMoves(s, t, k, Record(pc.receipt));
      case RecordVerified => AtMoves(s, t, k, Pin(pc.receipt));
      case PinVersion => PinGoes(s, k, pc.receipt);
      case PushCall(raises) => AtMoves(s, t, k, if raises then Raised else Finish(Complete, 0));
    }
  }

  lemma ExitMoves(s: JobState, t: JobState, q: nat, k: nat)
    requires t.threads == s.threads - {q}
    ensures Moves(s, t, k)
  {
  }

  lemma OtherMoves(s: JobState, t: JobState, q: nat, k: nat)
    requires q in s.threads && q in t.threads && t.threads == s.threads[q := t.threads[q]] && q != k
    ensures Moves(s, t, k)
  {
  }

  lemma MonitorGoes(kind: Kind, pc: Pc, next: Pc)
    requires (pc.Finish? && (next.Finish? || next.FinishWrite?) && next.final == pc.final) || (pc.FinishWrite? && next.Finish? && next.final == pc.final)
    ensures Goes(kind, pc, next)
  {
  }

  /** The run looked at its row, or wrote it. */
  predicate Looked(s: JobState, t: JobState, q: nat)
    requires q in s.threads
  {
    && q in t.threads && t.threads == s.threads[q := s.threads[q].(pc := t.threads[q].pc)]
    && var pc, next := s.threads[q].pc, t.threads[q].pc;
       (pc.Finish? && (next.Finish? || next.FinishWrite?) && next.final == pc.final) || (pc.FinishWrite? && next.Finish? && next.final == pc.final)
  }

  lemma LookedMoves(s: JobState, t: JobState, q: nat, k: nat)
    requires q in s.threads && Looked(s, t, q)
    ensures Moves(s, t, k)
  {
    hide Moves, Goes;
    MonitorGoes(s.threads[q].kind, s.threads[q].pc, t.threads[q].pc);
    if q == k { AtMoves(s, t, k, t.threads[k].pc); } else { OtherMoves(s, t, q, k); }
  }

  lemma ReadMoves(s: JobState, q: nat, target: Status, floor: int, k: nat)
    requires q in s.threads && s.threads[q].pc.Finish?
    ensures Moves(s, ReadRowStep(s, q, target, floor), k)
  {
    hide Moves, CancelSeen, Max;
    assert Looked(s, ReadRowStep(s, q, target, floor), q) by { if Terminal(s.row.status) { } else { } }
    LookedMoves(s, ReadRowStep(s, q, target, floor), q, k);
  }

  lemma WriteMoves(s: JobState, q: nat, k: nat)
    requires q in s.threads && s.threads[q].pc.FinishWrite?
    ensures Moves(s, WriteRowStep(s, q), k)
  {
    hide Moves, MonitoredRow;
    assert Looked(s, WriteRowStep(s, q), q) by { if s.row.status == s.threads[q].pc.seen { } else { } }
    LookedMoves(s, WriteRowStep(s, q), q, k);
  }

  lemma MonitorMoves(s: JobState, q: nat, a: MonitorAction, k: nat)
    requires q in s.threads && MonitorEnabled(s.threads[q], a)
    ensures Moves(s, MonitorStep(s, q, a), k)
  {
    hide UpdateJob, Finalize, LostRow, ReadRowStep, WriteRowStep, Max, Moves;
    var t := MonitorStep(s, q, a);
    match a {
      case ReadRow(target, floor) => ReadMoves(s, q, target, floor, k);
      case WriteRow => WriteMoves(s, q, k);
      case RecordOutput => KeptMoves(s, t, k);
      case Deliver => ExitMoves(s, t, q, k);
      case LoseMonitor => ExitMoves(s, t, q, k);
    }
  }

  lemma ErrorMoves(s: JobState, q: nat, a: ErrorAction, k: nat)
    requires q in s.threads && ErrorEnabled(s, q, a)
    ensures Moves(s, ErrorStep(s, q, a), k)
  {
    hide UpdateJob, Finalize, UpdateIfStatus, CancelSeen, Get;
  }

  lemma ServerMoves(s: JobState, a: ServerAction, k: nat)
    requires ServerEnabled(s, a)
    ensures Moves(s, ServerStep(s, a), k)
  {
    hide ServerStep, ServerEnabled, Moves, Goes;
    if a.Dequeue? { DequeueMoves(s, a.item, a.thread, k); } else { SameThreadsMove(s, ServerStep(s, a), k); }
  }

  lemma DequeueMoves(s: JobState, item: Item, q: nat, k: nat)
    requires ServerEnabled(s, Dequeue(item, q))
    ensures Moves(s, ServerStep(s, Dequeue(item, q)), k)
  {
    hide Goes;
  }

  lemma SameThreadsMove(s: JobState, t: JobState, k: nat)
    requires t.threads == s.threads
    ensures Moves(s, t, k)
  {
    hide Goes;
  }

  // ---- which candidate a run pushes ----

  /** No step but a crash takes an intent back or makes it name another candidate. */
  predicate ViewGrows(s: JobState, t: JobState) {
    forall r :: r in s.view ==> r in t.view && Binding(t.view[r]) == Binding(s.view[r])
  }

  lemma ViewKept(s: JobState, a: Action, remote: Remote)
    requires Inv(s, remote) && Enabled(s, a, remote) && !a.Crash?
    ensures ViewGrows(s, Step(s, a, remote))
  {
    hide RunStep, MonitorStep, ErrorStep, ChildStep, IntakeStep, ServerStep, RecoverStep, Exclusive, Fresh, RowOk, Attended, Threads, History;
    match a {
      case Run(k, r) => RunKeepsView(s, k, r, remote);
      case Monitor(k, m) => MonitorKeepsView(s, k, m);
      case Err(k, e) => ErrorKeepsView(s, k, e);
      case Upload(c, u) => ChildGrowsView(s, c, u);
      case Intake(i) => IntakeKeepsView(s, i);
      case Server(r) => ServerKeepsView(s, r);
      case Recover(o) => RecoverKeepsView(s, o);
    }
  }

  lemma RunKeepsView(s: JobState, k: nat, a: RunAction, remote: Remote)
    requires k in s.threads && RunEnabled(s, k, a, remote)
    ensures RunStep(s, k, a, remote).view == s.view
  {
    hide RunEnabled, CacheStep, UploadStep, SubmitStep;
    if CachePath(a) { CacheKeepsView(s, k, a, remote); }
    else if UploadPath(a) { UploadKeepsView(s, k, a, remote); }
    else { SubmitKeepsView(s, k, a, remote); }
  }

  lemma CacheKeepsView(s: JobState, k: nat, a: RunAction, remote: Remote)
    requires k in s.threads && RunEnabled(s, k, a, remote) && CachePath(a)
    ensures CacheStep(s, k, a, remote).view == s.view
  {
    hide Serves, UpdateJob, Pinned, Rewritten, AcquirePc;
  }

  lemma TransitionKeepsView(s: JobState, k: nat, expected: set<Status>, status: Status, progress: int, next: Pc)
    requires k in s.threads
    ensures Transition(s, k, expected, status, progress, next).view == s.view
  {
    hide Matches, UpdateJob, CancelSeen;
    if Matches(s.row, expected, true) { } else { }
  }

  lemma UploadKeepsView(s: JobState, k: nat, a: RunAction, remote: Remote)
    requires k in s.threads && RunEnabled(s, k, a, remote) && UploadPath(a)
    ensures UploadStep(s, k, a, remote).view == s.view
  {
    hide Transition;
    var pc := s.threads[k].pc;
    match a {
      case Prepare =>
        if pc.saved.Some? { TransitionKeepsView(s, k, {Queued}, WaitingDataset, 35, Verify(pc.saved.value)); }
        else { TransitionKeepsView(s, k, {Queued, UploadingDataset, WaitingDataset}, UploadingDataset, 20, Uploading); }
      case AfterUpload => TransitionKeepsView(s, k, {UploadingDataset}, WaitingDataset, 35, Verify(pc.receipt));
      case _ =>
    }
  }

  lemma SubmitKeepsView(s: JobState, k: nat, a: RunAction, remote: Remote)
    requires k in s.threads && RunEnabled(s, k, a, remote) && SubmitPath(a)
    ensures SubmitStep(s, k, a, remote).view == s.view
  {
    hide Serves, Transition, PinStep, UpdateJob, Pinned, CancelSeen, Get;
    var pc := s.threads[k].pc;
    match a {
      case VerifyBytes =>
      case RecordVerified =>
      case PinVersion => PinKeepsView(s, k, pc.receipt);
      case Submit => TransitionKeepsView(s, k, {Queued, WaitingDataset}, PushingKernel, 45, Push(pc.receipt));
      case PushCall(_) =>
    }
  }

  lemma PinKeepsView(s: JobState, k: nat, r: Receipt)
    requires k in s.threads
    ensures PinStep(s, k, r).view == s.view
  {
    hide Pinned, CancelSeen;
    if CancelSeen(s.row) { } else { }
  }

  lemma ReadKeepsView(s: JobState, k: nat, target: Status, floor: int)
    requires k in s.threads && s.threads[k].pc.Finish?
    ensures ReadRowStep(s, k, target, floor).view == s.view
  {
    hide CancelSeen, Max;
    if Terminal(s.row.status) { } else { }
  }

  lemma WriteKeepsView(s: JobState, k: nat)
    requires k in s.threads && s.threads[k].pc.FinishWrite?
    ensures WriteRowStep(s, k).view == s.view
  {
    hide MonitoredRow;
    if s.row.status == s.threads[k].pc.seen { } else { }
  }

  lemma MonitorKeepsView(s: JobState, k: nat, a: MonitorAction)
    requires k in s.threads && MonitorEnabled(s.threads[k], a)
    ensures MonitorStep(s, k, a).view == s.view
  {
    hide UpdateJob, Finalize, LostRow, ReadRowStep, WriteRowStep, Max;
    match a {
      case ReadRow(target, floor) => ReadKeepsView(s, k, target, floor);
      case WriteRow => WriteKeepsView(s, k);
      case _ =>
    }
  }

  lemma ErrorKeepsView(s: JobState, k: nat, a: ErrorAction)
    requires k in s.threads && ErrorEnabled(s, k, a)
    ensures ErrorStep(s, k, a).view == s.view
  {
    hide UpdateJob, Finalize, UpdateIfStatus, CancelSeen, Get;
  }

  lemma ChildGrowsView(s: JobState, c: nat, a: ChildAction)
    requires c in s.children && ChildEnabled(s, c, a) && ChildOk(s, c) && Files(s.row.datasetRef, s.view, s.disk, s.calls)
    ensures ViewGrows(s, ChildStep(s, c, a))
  {
  }

  lemma IntakeKeepsView(s: JobState, a: IntakeAction)
    requires IntakeEnabled(s, a)
    ensures IntakeStep(s, a).view == s.view
  {
    hide UpdateJob, UpdateIfStatus, Deduct, RewriteOwner, Matches, AwaitingAssignment, IntakeEnabled;
    match a {
      case StartAssembly => assert IntakeStep(s, a).view == s.view;
      case Reserve(_) => assert IntakeStep(s, a).view == s.view;
      case Consume(_) => assert IntakeStep(s, a).view == s.view;
      case AssemblyDone(_, _) => assert IntakeStep(s, a).view == s.view;
      case AssemblyFull => assert IntakeStep(s, a).view == s.view;
      case AssemblyFailed => assert IntakeStep(s, a).view == s.view;
      case CommitChunk(_) => assert IntakeStep(s, a).view == s.view;
      case ExpireUpload => assert IntakeStep(s, a).view == s.view;
      case Bind(_) => assert IntakeStep(s, a).view == s.view;
      case RejectBinding => assert IntakeStep(s, a).view == s.view;
    }
  }

  lemma ServerKeepsView(s: JobState, a: ServerAction)
    requires ServerEnabled(s, a)
    ensures ServerStep(s, a).view == s.view
  {
    hide ServerStep, ServerEnabled;
    assert ServerStep(s, a).view == s.view;
  }

  lemma RecoverKeepsView(s: JobState, o: Observed)
    requires s.recovering
    ensures RecoverStep(s, o).view == s.view
  {
    hide RecoverFail, RecoverEnqueue, RecoverCandidate, RecoverCancel, RecoverAssembly;
  }

  /** From world a to world c thread k of job j is one and the same run: ids are free again only after the run ended. */
  ghost predicate OneRun(ws: seq<World>, j: JobId, k: nat, a: nat, c: nat) {
    a <= c < |ws| && forall i :: a <= i <= c ==> j in ws[i].jobs && k in ws[i].jobs[j].threads
  }

  predicate Acquires(e: Event, j: JobId, k: nat) {
    e.Act? && e.job == j && e.action.Run? && e.action.thread == k && e.action.run.Acquire?
  }

  predicate StartsUpload(e: Event, j: JobId, k: nat) {
    e.Act? && e.job == j && e.action.Run? && e.action.thread == k && e.action.run.StartUpload?
  }

  predicate PushesBy(e: Event, j: JobId, k: nat) {
    IsPush(e, j) && e.action.thread == k
  }

  lemma WorldStep(ws: seq<World>, es: seq<Event>, i: nat)
    requires Execution(ws, es) && i < |es|
    ensures Possible(ws[i], es[i]) && ws[i + 1] == Next(ws[i], es[i])
  {
    hide Possible, Next;
  }

  /** One event of a run that goes on: it moves along its program, its dataset stays the same and its intent is kept. */
  lemma RunGoesOn(w: World, e: Event, j: JobId, k: nat)
    requires Possible(w, e) && j in w.jobs && Inv(w.jobs[j], w.remote) && j in Next(w, e).jobs
    requires k in w.jobs[j].threads && k in Next(w, e).jobs[j].threads
    ensures var s, t := w.jobs[j], Next(w, e).jobs[j];
      Moves(s, t, k) && ViewGrows(s, t) && t.row.datasetRef == s.row.datasetRef
  {
    hide Inv, Next, Step, Enabled, Moves, ViewGrows, FilesOnward;
    NextJob(w, e, j);
    var s, t := w.jobs[j], Next(w, e).jobs[j];
    if JobAction(j, e).Some? {
      var a := JobAction(j, e).value;
      if a.Crash? {
        CrashEnds(s, a.kind, w.remote, k);
      } else {
        ThreadMoves(s, a, w.remote, k);
        ViewKept(s, a, w.remote);
        StepOnward(s, a, w.remote);
        ThreadBound(s, k, w.remote);
      }
    } else {
      SameMoves(s, k);
    }
  }

  lemma CrashEnds(s: JobState, kind: CrashKind, remote: Remote, k: nat)
    ensures Enabled(s, Crash(kind), remote) && k !in Step(s, Crash(kind), remote).threads
  {
  }

  lemma SameMoves(s: JobState, k: nat)
    ensures Moves(s, s, k) && ViewGrows(s, s)
  {
  }

  lemma ThreadBound(s: JobState, k: nat, remote: Remote)
    requires Inv(s, remote) && k in s.threads
    ensures !AwaitingAssignment(s.row)
  {
    hide Exclusive, Fresh, RowOk, Files, Children, History;
  }

  /** What process_job decides when it holds the lock. */
  lemma AcquireDecides(s: JobState, k: nat, cache: Option<Receipt>, remote: Remote)
    requires Enabled(s, Run(k, Acquire(cache)), remote)
    ensures k in s.threads
    ensures var t, ref, recheck := Step(s, Run(k, Acquire(cache)), remote), s.row.datasetRef, s.threads[k].kind == RecheckRun;
      && k in t.threads && t.row == s.row && t.view == s.view
      && var pc, canceled := t.threads[k].pc, s.row.cancelRequested || s.row.status == CancelRequested;
         var retained := ref in s.view && s.view[ref].state != Rejected && s.view[ref].digest == s.local;
      && (pc == CancelWrite <==> canceled)
      && (pc == Raised <==> !canceled && recheck && !retained)
      && (pc.CacheVerify? <==> !canceled && !recheck && ref !in s.view && cache.Some?)
      && (pc.CacheVerify? ==> cache == Some(pc.receipt))
      && (pc.Prepared? <==> !canceled && (if recheck then retained else ref in s.view || cache.None?))
      && (pc.Prepared? ==> pc.saved == if recheck then Some(Receipt(s.view[ref].version, s.view[ref].digest)) else None)
      && (pc.CacheVerify? || pc.Prepared? ==> t.sources == Rewritten(s.sources, ref))
  {
    hide Rewritten, RunEnabled;
    assert RunEnabled(s, k, Acquire(cache), remote);
  }

  /** The candidate was there when the run took the lock. */
  predicate FromCache(s: JobState, k: nat, r: Receipt) {
    k in s.threads && var pc := s.threads[k].pc;
      pc == CacheVerify(r) || pc == CachePin(r) || pc == CacheRecord(r) || pc == Ready(r) || pc == Push(r) || pc.Finish? || pc.FinishWrite? || InHandler(pc)
  }

  predicate FromIntent(s: JobState, ref: string, r: Receipt) {
    s.row.datasetRef == ref && ref in s.view && Binding(s.view[ref]) == r
  }

  /** Or the run makes its own. */
  predicate FromUpload(s: JobState, k: nat) {
    k in s.threads && var pc := s.threads[k].pc;
      && !pc.Begin? && !pc.CacheVerify? && !pc.CachePin? && !pc.CacheRecord?
      && (pc.Uploaded? || pc.Verify? || pc.Record? || pc.Pin? || pc.Ready? || pc.Push? ==> s.row.datasetRef in s.view)
  }

  lemma FromCacheNext(s: JobState, t: JobState, k: nat, r: Receipt)
    requires FromCache(s, k, r) && Moves(s, t, k) && k in t.threads
    ensures FromCache(t, k, r)
  {
  }

  lemma FromUploadNext(s: JobState, t: JobState, k: nat, remote: Remote)
    requires FromUpload(s, k) && Moves(s, t, k) && k in t.threads && ViewGrows(s, t) && t.row.datasetRef == s.row.datasetRef && Inv(t, remote)
    ensures FromUpload(t, k)
  {
    hide Exclusive, Fresh, RowOk, Files, Children, History, PlaceOk, Serves, PinnedTo;
    assert ThreadOk(t, t.threads[k], remote);
  }

  lemma {:induction false} CachedRun(ws: seq<World>, es: seq<Event>, j: JobId, k: nat, a: nat, c: nat, r: Receipt)
    requires Execution(ws, es) && OneRun(ws, j, k, a, c) && FromCache(ws[a].jobs[j], k, r)
    ensures FromCache(ws[c].jobs[j], k, r)
    decreases c - a
  {
    hide Inv, Next, Possible, FromCache, Moves, ViewGrows;
    if a < c {
      CachedRun(ws, es, j, k, a, c - 1, r);
      AlwaysHealthy(ws, es, c - 1);
      WorldStep(ws, es, c - 1);
      assert j in ws[c].jobs && k in ws[c].jobs[j].threads;
      RunGoesOn(ws[c - 1], es[c - 1], j, k);
      FromCacheNext(ws[c - 1].jobs[j], ws[c].jobs[j], k, r);
    }
  }

  lemma {:induction false} RetainedRun(ws: seq<World>, es: seq<Event>, j: JobId, k: nat, a: nat, c: nat, ref: string, r: Receipt)
    requires Execution(ws, es) && OneRun(ws, j, k, a, c) && FromIntent(ws[a].jobs[j], ref, r)
    ensures FromIntent(ws[c].jobs[j], ref, r)
    decreases c - a
  {
    hide Inv, Next, Possible, Moves;
    if a < c {
      RetainedRun(ws, es, j, k, a, c - 1, ref, r);
      AlwaysHealthy(ws, es, c - 1);
      WorldStep(ws, es, c - 1);
      assert j in ws[c].jobs && k in ws[c].jobs[j].threads;
      RunGoesOn(ws[c - 1], es[c - 1], j, k);
    }
  }

  lemma {:induction false} OwnRun(ws: seq<World>, es: seq<Event>, j: JobId, k: nat, a: nat, c: nat)
    requires Execution(ws, es) && OneRun(ws, j, k, a, c) && FromUpload(ws[a].jobs[j], k)
    ensures FromUpload(ws[c].jobs[j], k)
    decreases c - a
  {
    hide Inv, Next, Possible, Moves, ViewGrows, FromUpload;
    if a < c {
      OwnRun(ws, es, j, k, a, c - 1);
      AlwaysHealthy(ws, es, c - 1);
      AlwaysHealthy(ws, es, c);
      WorldStep(ws, es, c - 1);
      assert j in ws[c].jobs && k in ws[c].jobs[j].threads;
      RunGoesOn(ws[c - 1], es[c - 1], j, k);
      FromUploadNext(ws[c - 1].jobs[j], ws[c].jobs[j], k, ws[c].remote);
    }
  }

  /** The run took the lock before it went on. */
  lemma RunAt(ws: seq<World>, es: seq<Event>, j: JobId, k: nat, a: nat, c: nat)
    requires Execution(ws, es) && a <= c < |es| && Acquires(es[a], j, k) && (PushesBy(es[c], j, k) || StartsUpload(es[c], j, k)) && OneRun(ws, j, k, a, c)
    ensures a < c && j in ws[a].jobs && j in ws[a + 1].jobs && j in ws[c].jobs
    ensures k in ws[a].jobs[j].threads && k in ws[a + 1].jobs[j].threads && k in ws[c].jobs[j].threads
    ensures Enabled(ws[a].jobs[j], es[a].action, ws[a].remote) && ws[a + 1].jobs[j] == Step(ws[a].jobs[j], es[a].action, ws[a].remote)
    ensures Enabled(ws[c].jobs[j], es[c].action, ws[c].remote)
    ensures OneRun(ws, j, k, a + 1, c)
  {
    hide Next, Step, Enabled;
    WorldStep(ws, es, a);
    WorldStep(ws, es, c);
    NextJob(ws[a], es[a], j);
    NextJob(ws[c], es[c], j);
    assert j in ws[a + 1].jobs && k in ws[a + 1].jobs[j].threads;
  }

  lemma AcquiredFacts(s: JobState, k: nat, cache: Option<Receipt>, remote: Remote, t: JobState)
    requires Enabled(s, Run(k, Acquire(cache)), remote) && t == Step(s, Run(k, Acquire(cache)), remote)
    ensures k in s.threads && k in t.threads && t.row == s.row && t.view == s.view
    ensures var pc, ref, recheck := t.threads[k].pc, s.row.datasetRef, s.threads[k].kind == RecheckRun;
      match pc
      case CacheVerify(r) => !s.row.cancelRequested && s.row.status != CancelRequested && !recheck && ref !in s.view && cache == Some(r) && FromCache(t, k, r)
      case Prepared(_) =>
        && !s.row.cancelRequested && s.row.status != CancelRequested && FromUpload(t, k)
        && if recheck then ref in s.view && s.view[ref].state != Rejected && s.view[ref].digest == s.local
           else ref in s.view || cache.None?
      case CancelWrite => true
      case Raised => true
      case _ => false
  {
    hide Enabled, Step;
    AcquireDecides(s, k, cache, remote);
    AcquirePlaces(s, k, cache, remote);
  }

  lemma AcquirePlaces(s: JobState, k: nat, cache: Option<Receipt>, remote: Remote)
    requires Enabled(s, Run(k, Acquire(cache)), remote)
    ensures var t := Step(s, Run(k, Acquire(cache)), remote);
      k in t.threads && var pc := t.threads[k].pc; pc.CacheVerify? || pc.Prepared? || pc.CancelWrite? || pc.Raised?
  {
    hide Rewritten, RunEnabled, Get, CancelSeen;
    assert RunEnabled(s, k, Acquire(cache), remote);
  }

  lemma {:induction false} InHandlerStays(ws: seq<World>, es: seq<Event>, j: JobId, k: nat, a: nat, c: nat)
    requires Execution(ws, es) && OneRun(ws, j, k, a, c) && InHandler(ws[a].jobs[j].threads[k].pc)
    ensures InHandler(ws[c].jobs[j].threads[k].pc)
    decreases c - a
  {
    hide Inv, Next, Possible, ViewGrows;
    if a < c {
      InHandlerStays(ws, es, j, k, a, c - 1);
      AlwaysHealthy(ws, es, c - 1);
      WorldStep(ws, es, c - 1);
      assert j in ws[c].jobs && k in ws[c].jobs[j].threads;
      RunGoesOn(ws[c - 1], es[c - 1], j, k);
    }
  }

  lemma SameDataset(ws: seq<World>, es: seq<Event>, j: JobId, k: nat, a: nat, c: nat)
    requires Execution(ws, es) && OneRun(ws, j, k, a, c)
    ensures ws[c].jobs[j].row.datasetRef == ws[a].jobs[j].row.datasetRef
  {
    hide Inv, Next, Possible, FilesOnward, AwaitingAssignment;
    AlwaysHealthy(ws, es, a);
    ThreadBound(ws[a].jobs[j], k, ws[a].remote);
    AlwaysOnward(ws, es, j, a, c);
  }

  lemma CachedPush(t: JobState, k: nat, r: Receipt)
    requires FromCache(t, k, r) && t.threads[k].pc.Push?
    ensures t.threads[k].pc == Push(r)
  {
  }

  lemma OwnPush(t: JobState, k: nat)
    requires FromUpload(t, k) && t.threads[k].pc.Push?
    ensures t.row.datasetRef in t.view
  {
  }

  lemma UploadFacts(t: JobState, k: nat, a: RunAction, remote: Remote)
    requires Enabled(t, Run(k, a), remote) && a.StartUpload?
    ensures k in t.threads && t.threads[k].pc.Uploading? && t.row.datasetRef !in t.view
  {
  }

  lemma NoUploadFromCache(t: JobState, k: nat, r: Receipt)
    requires FromCache(t, k, r)
    ensures !t.threads[k].pc.Uploading?
  {
  }

  /** Between taking the lock and monitoring. */
  predicate InsideLock(s: JobState, k: nat) {
    k in s.threads && var pc := s.threads[k].pc; !pc.Begin? && !pc.Finish? && !pc.FinishWrite? && !InHandler(pc)
  }

  lemma InsideRun(s: JobState, k: nat)
    requires InsideLock(s, k)
    ensures k in s.threads
  {
  }

  /** A run gets there only by taking the lock. */
  lemma LockTaken(s: JobState, a: Action, remote: Remote, k: nat)
    requires Inv(s, remote) && Enabled(s, a, remote) && InsideLock(Step(s, a, remote), k)
    ensures k in s.threads && (InsideLock(s, k) || (a.Run? && a.thread == k && a.run.Acquire?))
  {
    hide Inv, Step, Enabled;
    ThreadMoves(s, a, remote, k);
    if !InsideLock(s, k) { LeavesBegin(s, a, remote, k); }
  }

  lemma LeavesBegin(s: JobState, a: Action, remote: Remote, k: nat)
    requires Inv(s, remote) && Enabled(s, a, remote) && k in s.threads && s.threads[k].pc.Begin? && InsideLock(Step(s, a, remote), k)
    ensures a.Run? && a.thread == k && a.run.Acquire?
  {
    hide RunStep, MonitorStep, ErrorStep, ChildStep, IntakeStep, ServerStep, CrashStep, RecoverStep, Fresh, RowOk, Files, Children, Threads, History, Serves;
    match a {
      case Run(q, run) => assert q == k;
      case Monitor(_, _) =>
      case Err(q, e) => assert q == k; ErrorStays(s, k, e);
      case Upload(c, u) => ChildThread(s, c, u, k);
      case Intake(i) => IntakeThread(s, i, k);
      case Server(q) => ServerStays(s, q, k);
      case Crash(kind) => CrashThread(s, kind, k);
      case Recover(o) => RecoverThreads(s, o, k);
    }
  }

  lemma ErrorStays(s: JobState, k: nat, a: ErrorAction)
    requires k in s.threads && ErrorEnabled(s, k, a)
    ensures k in ErrorStep(s, k, a).threads ==> InHandler(ErrorStep(s, k, a).threads[k].pc)
  {
    hide UpdateJob, Finalize, UpdateIfStatus, CancelSeen, Get;
  }

  lemma ServerStays(s: JobState, a: ServerAction, k: nat)
    requires ServerEnabled(s, a) && k in s.threads
    ensures k in ServerStep(s, a).threads && ServerStep(s, a).threads[k] == s.threads[k]
  {
    hide UpdateJob, UpdateIfStatus, Requeue, CancelUpdate;
  }

  /** So whoever pushes or uploads took the lock earlier in the same run. */
  lemma {:induction false} LockBefore(ws: seq<World>, es: seq<Event>, j: JobId, k: nat, c: nat) returns (a: nat)
    requires Execution(ws, es) && c < |ws| && j in ws[c].jobs && InsideLock(ws[c].jobs[j], k)
    ensures a < c && Acquires(es[a], j, k) && OneRun(ws, j, k, a, c)
  {
    hide Inv, Next, Possible, Step, Enabled, InsideLock, Created;
    assert c > 0 by { NobodyAtFirst(ws[c], j); }
    var w, e := ws[c - 1], es[c - 1];
    WorldStep(ws, es, c - 1);
    InsideRun(ws[c].jobs[j], k);
    if j in w.jobs {
      NextJob(w, e, j);
      AlwaysHealthy(ws, es, c - 1);
      if JobAction(j, e).Some? {
        LockTaken(w.jobs[j], JobAction(j, e).value, w.remote, k);
        if InsideLock(w.jobs[j], k) {
          a := LockBefore(ws, es, j, k, c - 1);
        } else {
          a := c - 1;
        }
      } else {
        a := LockBefore(ws, es, j, k, c - 1);
      }
    } else {
      a := 0;
      NewJobIdle(w, e, j, k);
      assert false;
    }
  }

  lemma NobodyAtFirst(w: World, j: JobId)
    ensures w.jobs == map[] ==> j !in w.jobs
  {
  }

  lemma NewJobIdle(w: World, e: Event, j: JobId, k: nat)
    requires Possible(w, e) && j !in w.jobs && j in Next(w, e).jobs
    ensures k !in Next(w, e).jobs[j].threads
  {
    hide CrashStep, Step, Enabled;
  }

  /** Which candidate a run pushes, decided by what it saw when it took the lock of its dataset (state s, cache entry cache):
      a retained intent binds it to that version and those bytes; without one the ready cache entry does; without both it is
      the candidate of the job's own intent.  A canceled run pushes nothing, and a recheck only its retained candidate. */
  predicate Candidate(s: JobState, k: nat, cache: Option<Receipt>, t: JobState) {
    && k in s.threads && k in t.threads && t.threads[k].pc.Push?
    && var ref, r := s.row.datasetRef, t.threads[k].pc.receipt;
    && !s.row.cancelRequested && s.row.status != CancelRequested
    && (ref in s.view ==> r == Receipt(s.view[ref].version, s.view[ref].digest))
    && (ref !in s.view && cache.Some? ==> r == cache.value)
    && (ref !in s.view && cache.None? ==> ref in t.view && r == Receipt(t.view[ref].version, t.view[ref].digest))
    && (s.threads[k].kind == RecheckRun ==> ref in s.view && s.view[ref].state != Rejected && s.view[ref].digest == s.local)
  }

  lemma RunPushes(ws: seq<World>, es: seq<Event>, j: JobId, k: nat, a: nat, c: nat)
    requires Execution(ws, es) && a <= c < |es| && Acquires(es[a], j, k) && PushesBy(es[c], j, k) && OneRun(ws, j, k, a, c)
    ensures Candidate(ws[a].jobs[j], k, es[a].action.run.cache, ws[c].jobs[j])
  {
    hide Inv, Next, Step, Enabled, FromCache, FromUpload;
    var s, t := ws[a].jobs[j], ws[c].jobs[j];
    RunAt(ws, es, j, k, a, c);
    AlwaysHealthy(ws, es, c);
    PushFacts(t, k, es[c].action.run.raises, ws[c].remote);
    AcquiredFacts(s, k, es[a].action.run.cache, ws[a].remote, ws[a + 1].jobs[j]);
    if s.row.datasetRef in s.view {
      RetainedRun(ws, es, j, k, a, c, s.row.datasetRef, Binding(s.view[s.row.datasetRef]));
    }
    SameDataset(ws, es, j, k, a, c);
    match ws[a + 1].jobs[j].threads[k].pc {
      case CacheVerify(r) => CachedRun(ws, es, j, k, a + 1, c, r); CachedPush(t, k, r);
      case Prepared(_) => OwnRun(ws, es, j, k, a + 1, c); OwnPush(t, k);
      case CancelWrite => InHandlerStays(ws, es, j, k, a + 1, c);
      case Raised => InHandlerStays(ws, es, j, k, a + 1, c);
    }
  }

  /** A run may upload only as a full run, uncanceled when it took the lock, without a retained intent and
      without a ready cache entry. */
  predicate MayUpload(s: JobState, k: nat, cache: Option<Receipt>) {
    && k in s.threads && s.threads[k].kind != RecheckRun && s.row.datasetRef !in s.view && cache.None?
    && !s.row.cancelRequested && s.row.status != CancelRequested
  }

  lemma RunUploads(ws: seq<World>, es: seq<Event>, j: JobId, k: nat, a: nat, c: nat)
    requires Execution(ws, es) && a <= c < |es| && Acquires(es[a], j, k) && StartsUpload(es[c], j, k) && OneRun(ws, j, k, a, c)
    ensures MayUpload(ws[a].jobs[j], k, es[a].action.run.cache)
  {
    hide Inv, Next, Step, Enabled, FromCache, FromUpload;
    var s, t := ws[a].jobs[j], ws[c].jobs[j];
    RunAt(ws, es, j, k, a, c);
    UploadFacts(t, k, es[c].action.run, ws[c].remote);
    AcquiredFacts(s, k, es[a].action.run.cache, ws[a].remote, ws[a + 1].jobs[j]);
    if s.row.datasetRef in s.view {
      RetainedRun(ws, es, j, k, a, c, s.row.datasetRef, Binding(s.view[s.row.datasetRef]));
    }
    match ws[a + 1].jobs[j].threads[k].pc {
      case CacheVerify(r) => CachedRun(ws, es, j, k, a + 1, c, r); NoUploadFromCache(t, k, r);
      case CancelWrite => InHandlerStays(ws, es, j, k, a + 1, c);
      case Raised => InHandlerStays(ws, es, j, k, a + 1, c);
      case Prepared(_) =>
    }
  }

  /** Every push of every execution is of that candidate. */
  lemma PushedCandidate(ws: seq<World>, es: seq<Event>, j: JobId, k: nat, c: nat)
    requires Execution(ws, es) && c < |es| && PushesBy(es[c], j, k)
    ensures j in ws[c].jobs
    ensures exists a :: 0 <= a < c && Acquires(es[a], j, k) && OneRun(ws, j, k, a, c) && Candidate(ws[a].jobs[j], k, es[a].action.run.cache, ws[c].jobs[j])
  {
    hide Inv, Next, Step, Enabled, Candidate;
    WorldStep(ws, es, c);
    AlwaysHealthy(ws, es, c);
    PushFacts(ws[c].jobs[j], k, es[c].action.run.raises, ws[c].remote);
    var a := LockBefore(ws, es, j, k, c);
    RunPushes(ws, es, j, k, a, c);
  }

  /** Every upload of every execution is one that the run may make; so a job with an intent, or with a ready
      cache entry, is never uploaded, and a recheck never uploads. */
  lemma UploadingRun(ws: seq<World>, es: seq<Event>, j: JobId, k: nat, c: nat)
    requires Execution(ws, es) && c < |es| && StartsUpload(es[c], j, k)
    ensures j in ws[c].jobs
    ensures exists a :: 0 <= a < c && Acquires(es[a], j, k) && OneRun(ws, j, k, a, c) && MayUpload(ws[a].jobs[j], k, es[a].action.run.cache)
  {
    hide Inv, Next, Step, Enabled, MayUpload;
    WorldStep(ws, es, c);
    UploadFacts(ws[c].jobs[j], k, es[c].action.run, ws[c].remote);
    var a := LockBefore(ws, es, j, k, c);
    RunUploads(ws, es, j, k, a, c);
  }

  // ---- the failure handler ----

  /** The handler keeps the candidate: the run was uploading or waiting, and the intent can be read and its outcome is unknown,
      or it was accepted and the failure does not speak against its bytes. */
  predicate Keeps(s: JobState, readable: bool, integrity: bool) {
    && s.row.status in {UploadingDataset, WaitingDataset}
    && readable && s.row.datasetRef in s.view
    && var state := s.view[s.row.datasetRef].state; state == Unknown || (state == Accepted && !integrity)
  }

  /** No event between the two concerns the job. */
  ghost predicate Undisturbed(es: seq<Event>, j: JobId, a: nat, c: nat) {
    a < c <= |es| && forall i :: a < i < c ==> JobAction(j, es[i]).None?
  }

  lemma {:induction false} Untroubled(ws: seq<World>, es: seq<Event>, j: JobId, a: nat, c: nat)
    requires Execution(ws, es) && Undisturbed(es, j, a, c) && j in ws[a + 1].jobs
    ensures j in ws[c].jobs && ws[c].jobs[j] == ws[a + 1].jobs[j]
    decreases c - a
  {
    hide Next, Possible, Step, Enabled;
    if a + 1 < c {
      Untroubled(ws, es, j, a, c - 1);
      WorldStep(ws, es, c - 1);
      NextJob(ws[c - 1], es[c - 1], j);
    }
  }

  /** In every execution, an exception that the handler looks at while nobody else touches the job takes it to waiting_dataset with
      its candidate retained exactly if the handler keeps the candidate, and ends it otherwise: as failed, or as canceled
      if that was asked for, which cannot be while the run was uploading or waiting. */
  lemma HandlerDecides(ws: seq<World>, es: seq<Event>, j: JobId, k: nat, a: nat, c: nat)
    requires Execution(ws, es) && c < |es| && Undisturbed(es, j, a, c)
    requires es[a].Act? && es[a].job == j && es[a].action.Err? && es[a].action.thread == k && es[a].action.err.Handle?
    requires es[c].Act? && es[c].job == j && es[c].action.Err? && es[c].action.thread == k && !es[c].action.err.Raise?
    ensures j in ws[a].jobs && j in ws[c + 1].jobs
    ensures Handled(ws[a].jobs[j], es[a].action.err.readable, es[a].action.err.integrity, ws[c + 1].jobs[j], k)
  {
    hide Inv, Next, Step, Enabled, Handled;
    AlwaysHealthy(ws, es, a);
    WorldStep(ws, es, a);
    NextJob(ws[a], es[a], j);
    Untroubled(ws, es, j, a, c);
    WorldStep(ws, es, c);
    NextJob(ws[c], es[c], j);
    HandlerSteps(ws[a].jobs[j], k, es[a].action.err.readable, es[a].action.err.integrity, es[c].action.err, ws[a].remote, ws[c].remote);
  }

  predicate Handled(s: JobState, readable: bool, integrity: bool, t: JobState, k: nat) {
    if Keeps(s, readable, integrity) then
      t.row == s.row.(status := WaitingDataset, error := RetainedCandidate) && k in t.threads && t.view == s.view
    else
      && k !in t.threads && t.view == s.view
      && (Terminal(s.row.status) ==> t.row == s.row)
      && (!Terminal(s.row.status) ==> t.row.status == if s.row.cancelRequested || s.row.status == CancelRequested then Canceled else Failed)
      && (s.row.status in {UploadingDataset, WaitingDataset} ==> t.row.status == Failed)
  }

  lemma HandlerSteps(s: JobState, k: nat, readable: bool, integrity: bool, e: ErrorAction, remote: Remote, later: Remote)
    requires Inv(s, remote) && Enabled(s, Err(k, Handle(readable, integrity)), remote) && !e.Raise?
    requires Enabled(Step(s, Err(k, Handle(readable, integrity)), remote), Err(k, e), later)
    ensures Handled(s, readable, integrity, Step(Step(s, Err(k, Handle(readable, integrity)), remote), Err(k, e), later), k)
  {
    hide Inv, Handled, Keeps;
    var u := Step(s, Err(k, Handle(readable, integrity)), remote);
    RaisedUncanceled(s, k, remote);
    HandleLeads(s, k, readable, integrity);
    assert u == ErrorStep(s, k, Handle(readable, integrity));
    var t := Step(u, Err(k, e), later);
    assert t == ErrorStep(u, k, e);
    if Keeps(s, readable, integrity) {
      assert e.Retain?;
      RetainWrites(u, k);
    } else {
      assert e.Fail?;
      FailWrites(u, k);
    }
    HandledAs(s, readable, integrity, u, t, k);
  }

  /** A run that raised while uploading or waiting was not canceled. */
  lemma RaisedUncanceled(s: JobState, k: nat, remote: Remote)
    requires Inv(s, remote) && k in s.threads && s.threads[k].pc.Raised?
    ensures s.row.status in {UploadingDataset, WaitingDataset} ==> !s.row.cancelRequested
  {
    hide Exclusive, Fresh, Files, Children, History;
    assert PlaceOk(s.row, s.entered, s.pushes != [], s.threads[k]) by { assert ThreadOk(s, s.threads[k], remote); }
  }

  lemma HandleLeads(s: JobState, k: nat, readable: bool, integrity: bool)
    requires k in s.threads && ErrorEnabled(s, k, Handle(readable, integrity))
    ensures var u := ErrorStep(s, k, Handle(readable, integrity));
      && u.row == s.row && u.view == s.view && k in u.threads && s.threads[k].pc.Raised?
      && u.threads[k].pc == if Keeps(s, readable, integrity) then RetainWrite else FailWrite
  {
  }

  lemma RetainWrites(s: JobState, k: nat)
    requires k in s.threads && ErrorEnabled(s, k, Retain)
    ensures var t := ErrorStep(s, k, Retain);
      t.row == s.row.(status := WaitingDataset, error := RetainedCandidate) && k in t.threads && t.view == s.view
  {
  }

  lemma FailWrites(s: JobState, k: nat)
    requires k in s.threads && ErrorEnabled(s, k, Fail)
    ensures var t := ErrorStep(s, k, Fail);
      && k !in t.threads && t.view == s.view
      && (Terminal(s.row.status) ==> t.row == s.row)
      && (!Terminal(s.row.status) ==> t.row.status == if s.row.cancelRequested || s.row.status == CancelRequested then Canceled else Failed)
  {
  }

  lemma HandledAs(s: JobState, readable: bool, integrity: bool, u: JobState, t: JobState, k: nat)
    requires u.row == s.row && u.view == s.view && (s.row.status in {UploadingDataset, WaitingDataset} ==> !s.row.cancelRequested)
    requires if Keeps(s, readable, integrity) then
        t.row == u.row.(status := WaitingDataset, error := RetainedCandidate) && k in t.threads && t.view == u.view
      else
        && k !in t.threads && t.view == u.view && (Terminal(u.row.status) ==> t.row == u.row)
        && (!Terminal(u.row.status) ==> t.row.status == if u.row.cancelRequested || u.row.status == CancelRequested then Canceled else Failed)
    ensures Handled(s, readable, integrity, t, k)
  {
    hide Keeps;
  }

  // ---- the transitions of process_job ----

  /** A compare-and-set of process_job: it is made on an uncanceled row in one of the expected statuses, and otherwise the run
      ends, as canceled if that was asked for. */
  predicate ComparesAndSets(s: JobState, k: nat, t: JobState, expected: set<Status>, status: Status, progress: int, next: Pc) {
    k in t.threads && if s.row.status in expected && !s.row.cancelRequested then
      t.row == s.row.(status := status, progress := progress) && t.threads[k].pc == next
    else
      t.row == s.row && t.threads[k].pc == if s.row.cancelRequested || s.row.status == CancelRequested then CancelWrite else Raised
  }

  /** The steps of process_job around upload, verification and push. */
  predicate Proceeds(s: JobState, k: nat, a: RunAction, t: JobState)
    requires k in s.threads
  {
    var pc, row, ref := s.threads[k].pc, s.row, s.row.datasetRef;
    match a
    case Prepare => pc.Prepared? &&
      if pc.saved.Some? then ComparesAndSets(s, k, t, {Queued}, WaitingDataset, 35, Verify(pc.saved.value))
      else ComparesAndSets(s, k, t, {Queued, UploadingDataset, WaitingDataset}, UploadingDataset, 20, Uploading)
    case ReuseIntent => k in t.threads && t.row == row && ref in s.view &&
      t.threads[k].pc == if s.view[ref].digest == s.local && s.view[ref].state in {Unknown, Accepted} then
          Uploaded(Receipt(s.view[ref].version, s.view[ref].digest)) else Raised
    case UploadReturned => k in t.threads && t.row == row && pc.AwaitUpload? && pc.child in s.children && s.children[pc.child].stage.Done? &&
      t.threads[k].pc == if s.children[pc.child].stage.success then Uploaded(s.children[pc.child].receipt) else Raised
    case GiveUpUpload => k in t.threads && t.row == row && t.threads[k].pc == Raised
    case AfterUpload => pc.Uploaded? && ComparesAndSets(s, k, t, {UploadingDataset}, WaitingDataset, 35, Verify(pc.receipt))
    case RecordVerified => t.row == row.(progress := 40, recheck := NoRecheck, error := NoError)
    case PinVersion => k in t.threads && t.row == row && pc.Pin? &&
      if row.cancelRequested || row.status == CancelRequested then t.threads[k].pc == CancelWrite && t.sources == s.sources
      else t.threads[k].pc == Ready(pc.receipt) && t.sources == Pinned(s.sources, ref, pc.receipt.version)
    case Submit => pc.Ready? && ComparesAndSets(s, k, t, {Queued, WaitingDataset}, PushingKernel, 45, Push(pc.receipt))
    case PushCall(raises) => k in t.threads && t.row == row && t.threads[k].pc == if raises then Raised else Finish(Complete, 0)
    case _ => true
  }

  /** In every execution process_job makes its transitions so. */
  lemma RunDecides(ws: seq<World>, es: seq<Event>, i: nat, j: JobId)
    requires Execution(ws, es) && i < |es| && es[i].Act? && es[i].job == j && es[i].action.Run?
    ensures j in ws[i].jobs && j in ws[i + 1].jobs && es[i].action.thread in ws[i].jobs[j].threads
    ensures Proceeds(ws[i].jobs[j], es[i].action.thread, es[i].action.run, ws[i + 1].jobs[j])
  {
    hide Step, Enabled, Next, Proceeds;
    WorldStep(ws, es, i);
    NextJob(ws[i], es[i], j);
    RunProceeds(ws[i].jobs[j], es[i].action.thread, es[i].action.run, ws[i].remote);
  }

  lemma RunProceeds(s: JobState, k: nat, a: RunAction, remote: Remote)
    requires Enabled(s, Run(k, a), remote)
    ensures k in s.threads && Proceeds(s, k, a, Step(s, Run(k, a), remote))
  {
    hide RunEnabled, Proceeds, CacheStep, UploadStep, SubmitStep;
    assert RunEnabled(s, k, a, remote) && Step(s, Run(k, a), remote) == RunStep(s, k, a, remote);
    if CachePath(a) { CacheProceeds(s, k, a, remote); }
    else if UploadPath(a) { UploadProceeds(s, k, a, remote); }
    else { SubmitProceeds(s, k, a, remote); }
  }

  lemma TransitionProceeds(s: JobState, k: nat, expected: set<Status>, status: Status, progress: int, next: Pc)
    requires k in s.threads && !Terminal(status)
    ensures ComparesAndSets(s, k, Transition(s, k, expected, status, progress, next), expected, status, progress, next)
  {
    hide Transition, Matches, CancelSeen, At;
    RowMatches(s.row, expected);
    if Matches(s.row, expected, true) { TransitionMade(s, k, expected, status, progress, next); }
    else { TransitionRefused(s, k, expected, status, progress, next); }
  }

  lemma TransitionMade(s: JobState, k: nat, expected: set<Status>, status: Status, progress: int, next: Pc)
    requires k in s.threads && !Terminal(status) && Matches(s.row, expected, true)
    ensures var t := Transition(s, k, expected, status, progress, next);
      t.threads[k].pc == next && t.row == s.row.(status := status, progress := progress)
  {
    hide Matches, CancelSeen, UpdateJob;
    OpenRow(s.row, status, progress);
  }

  lemma TransitionRefused(s: JobState, k: nat, expected: set<Status>, status: Status, progress: int, next: Pc)
    requires k in s.threads && !Matches(s.row, expected, true)
    ensures var t := Transition(s, k, expected, status, progress, next);
      t.threads[k].pc == (if CancelSeen(s.row) then CancelWrite else Raised) && t.row == s.row
  {
    hide Matches, CancelSeen, UpdateJob;
  }

  lemma RowMatches(row: Row, expected: set<Status>)
    ensures Matches(row, expected, true) <==> row.status in expected && !row.cancelRequested
    ensures CancelSeen(row) <==> row.cancelRequested || row.status == CancelRequested
  {
  }

  lemma OpenRow(row: Row, status: Status, progress: int)
    requires !Terminal(status)
    ensures UpdateJob(row, Update(status := Some(status), progress := Some(progress))) == row.(status := status, progress := progress)
  {
  }

  lemma CacheProceeds(s: JobState, k: nat, a: RunAction, remote: Remote)
    requires k in s.threads && RunEnabled(s, k, a, remote) && CachePath(a)
    ensures Proceeds(s, k, a, CacheStep(s, k, a, remote))
  {
    hide CacheStep, RunEnabled;
  }

  lemma UploadProceeds(s: JobState, k: nat, a: RunAction, remote: Remote)
    requires k in s.threads && RunEnabled(s, k, a, remote) && UploadPath(a)
    ensures Proceeds(s, k, a, UploadStep(s, k, a, remote))
  {
    hide Transition, ComparesAndSets;
    var pc := s.threads[k].pc;
    match a {
      case Prepare =>
        if pc.saved.Some? { TransitionProceeds(s, k, {Queued}, WaitingDataset, 35, Verify(pc.saved.value)); }
        else { TransitionProceeds(s, k, {Queued, UploadingDataset, WaitingDataset}, UploadingDataset, 20, Uploading); }
      case AfterUpload => TransitionProceeds(s, k, {UploadingDataset}, WaitingDataset, 35, Verify(pc.receipt));
      case _ =>
    }
  }

  lemma SubmitProceeds(s: JobState, k: nat, a: RunAction, remote: Remote)
    requires k in s.threads && RunEnabled(s, k, a, remote) && SubmitPath(a)
    ensures Proceeds(s, k, a, SubmitStep(s, k, a, remote))
  {
    hide Transition, ComparesAndSets, Serves, Pinned, Get, Proceeds, PinStep;
    var pc, t := s.threads[k].pc, SubmitStep(s, k, a, remote);
    match a {
      case Submit => SubmitsKernel(s, k, remote);
      case PinVersion => PinProceeds(s, k, remote);
      case RecordVerified => VerifiedProceeds(s, k, remote);
      case PushCall(raises) => PushProceeds(s, k, raises, remote);
      case VerifyBytes => NextProceeds(s, k, t);
    }
  }

  lemma PushProceeds(s: JobState, k: nat, raises: bool, remote: Remote)
    requires k in s.threads && RunEnabled(s, k, PushCall(raises), remote)
    ensures Proceeds(s, k, PushCall(raises), SubmitStep(s, k, PushCall(raises), remote))
  {
    hide Serves, Pinned, Get;
  }

  lemma NextProceeds(s: JobState, k: nat, t: JobState)
    requires k in s.threads
    ensures Proceeds(s, k, VerifyBytes, t)
  {
  }

  lemma SubmitsKernel(s: JobState, k: nat, remote: Remote)
    requires k in s.threads && RunEnabled(s, k, Submit, remote)
    ensures Proceeds(s, k, Submit, SubmitStep(s, k, Submit, remote))
  {
    hide Transition;
    TransitionProceeds(s, k, {Queued, WaitingDataset}, PushingKernel, 45, Push(s.threads[k].pc.receipt));
  }

  lemma PinProceeds(s: JobState, k: nat, remote: Remote)
    requires k in s.threads && RunEnabled(s, k, PinVersion, remote)
    ensures Proceeds(s, k, PinVersion, SubmitStep(s, k, PinVersion, remote))
  {
    hide Pinned, Serves, Transition;
    if CancelSeen(s.row) { } else { }
  }

  lemma VerifiedProceeds(s: JobState, k: nat, remote: Remote)
    requires k in s.threads && RunEnabled(s, k, RecordVerified, remote)
    ensures Proceeds(s, k, RecordVerified, SubmitStep(s, k, RecordVerified, remote))
  {
    hide Pinned, Serves;
  }
}
