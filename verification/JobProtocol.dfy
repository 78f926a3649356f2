/** One job's life as a state machine.  Every action below is one atomic effect of the service on
    this job: a database transaction, a rename or fsync of the job's upload intent, a remote call,
    or a write of its kernel metadata.  Worker threads, the upload child process, request handlers,
    the dataset recheck scanner, the dynamic scheduler, crashes and restart recovery interleave freely;
    the other jobs appear as arbitrary cache entries and as arbitrary growth of the remote versions. */
module JobProtocol {
  import opened Options
  import opened Database
  import opened KaggleRefs

  /** Dataset bytes, named by their digest: SHA-256 is taken to be injective. */
  type Content = nat

  datatype IntentState = Unknown | Accepted | Rejected
  datatype Intent = Intent(version: nat, digest: Content, state: IntentState)
  datatype Receipt = Receipt(version: nat, digest: Content)

  function Binding(i: Intent): Receipt {
    Receipt(i.version, i.digest)
  }

  datatype Item = ProcessItem | RecheckItem | ResumeItem(final: Status)

  /** The child process that found no intent: checked it, renamed the new one into place, made it
      durable, returned from the remote call, wrote the outcome, made the outcome durable. */
  datatype Stage = Checked | Replaced | Durable | Called | Settled(accepted: bool) | Done(success: bool)
  datatype Child = Child(receipt: Receipt, stage: Stage)

  datatype Kind = Process | RecheckRun | Resume
  datatype Pc =
    | Begin
    | CacheVerify(receipt: Receipt) | CachePin(receipt: Receipt) | CacheRecord(receipt: Receipt)
    | Prepared(saved: Option<Receipt>)
    | Uploading | AwaitUpload(child: nat) | Uploaded(receipt: Receipt)
    | Verify(receipt: Receipt) | Record(receipt: Receipt) | Pin(receipt: Receipt)
    | Ready(receipt: Receipt) | Push(receipt: Receipt)
    | Finish(final: Status, phase: nat)
    | FinishWrite(final: Status, phase: nat, seen: Status, next: Status, progress: int, goal: nat)
    | Raised | RetainWrite | RetainSchedule | FailWrite | CancelWrite
  datatype Thread = Thread(kind: Kind, pc: Pc)

  datatype Call = Call(datasetRef: string, receipt: Receipt)
  datatype PushRecord = PushRecord(datasetRef: string, receipt: Receipt, sources: seq<string>, intent: Option<Intent>)

  type Remote = map<(string, nat), Content>
  type Intents = map<string, Intent>

  datatype JobState = JobState(
    row: Row,
    active: bool,                 // job id in active_job_ids
    threads: map<nat, Thread>,    // worker threads running this job
    queue: multiset<Item>,        // queued or parked items of this job
    view: Intents,                // intent files of this job's dataset directory, as programs see them
    disk: Intents,                // as they survive a power failure
    children: map<nat, Child>,
    sources: seq<string>,         // dataset_sources of the extracted kernel metadata
    local: Content,               // the extracted dataset directory
    assembly: bool,               // complete_job holds the job lock and assembles the archives
    recovering: bool,             // restart recovery has not looked at this job yet
    calls: seq<Call>,             // history: remote create/version calls
    pushes: seq<PushRecord>,      // history: kernel push calls
    entered: bool)                // history: status was ever pushing_kernel

  function Get(m: Intents, ref: string): Option<Intent> {
    if ref in m then Some(m[ref]) else None
  }

  function Max(a: int, b: int): int {
    if a < b then b else a
  }

  predicate CancelSeen(row: Row) {
    row.cancelRequested || row.status == CancelRequested
  }

  function At(s: JobState, k: nat, pc: Pc): JobState
    requires k in s.threads
  {
    s.(threads := s.threads[k := s.threads[k].(pc := pc)])
  }

  /** The worker loop's cleanup: the job id leaves active_job_ids with its thread. */
  function Exit(s: JobState, k: nat): JobState {
    s.(threads := s.threads - {k}, active := false)
  }

  /** Compare-and-set transition of process_job: on failure it raises, as a cancellation if one is recorded. */
  function Transition(s: JobState, k: nat, expected: set<Status>, status: Status, progress: int, next: Pc): (t: JobState)
    requires k in s.threads
    ensures k in t.threads
  {
    if Matches(s.row, expected, true) then
      At(s.(row := UpdateJob(s.row, Update(status := Some(status), progress := Some(progress)))), k, next)
    else At(s, k, if CancelSeen(s.row) then CancelWrite else Raised)
  }

  // ---- worker threads: process_job up to the kernel push ----

  datatype RunAction =
    | Acquire(cache: Option<Receipt>)      // submission lock held; cancellation, cache and intent are read
    | VerifyCached | PinCached | RecordCached
    | Prepare
    | ReuseIntent | StartUpload(child: nat, version: nat) | UploadReturned | GiveUpUpload
    | AfterUpload | VerifyBytes | RecordVerified | PinVersion | Submit
    | PushCall(raises: bool)

  predicate BeforeSubmission(pc: Pc) {
    pc.Begin? || pc.CacheVerify? || pc.CachePin? || pc.CacheRecord? || pc.Prepared? || pc.Uploading? || pc.AwaitUpload?
    || pc.Uploaded? || pc.Verify? || pc.Record? || pc.Pin? || pc.Ready?
  }

  /** Kaggle serves the version and its bytes are the receipt's. */
  predicate Serves(remote: Remote, ref: string, r: Receipt) {
    (ref, r.version) in remote && remote[(ref, r.version)] == r.digest
  }

  predicate RunEnabled(s: JobState, k: nat, a: RunAction, remote: Remote)
    requires k in s.threads
  {
    var pc, ref := s.threads[k].pc, s.row.datasetRef;
    match a
    case Acquire(_) => pc.Begin?
    case VerifyCached => pc.CacheVerify? && Serves(remote, ref, pc.receipt)
    case PinCached => pc.CachePin?
    case RecordCached => pc.CacheRecord?
    case Prepare => pc.Prepared?
    case ReuseIntent => pc.Uploading? && ref in s.view
    case StartUpload(c, v) => pc.Uploading? && ref !in s.view && c !in s.children && v > 0
    case UploadReturned => pc.AwaitUpload? && pc.child in s.children && s.children[pc.child].stage.Done?
    case GiveUpUpload => pc.AwaitUpload?
    case AfterUpload => pc.Uploaded?
    case VerifyBytes => pc.Verify? && s.local == pc.receipt.digest && Serves(remote, ref, pc.receipt)
    case RecordVerified => pc.Record?
    case PinVersion => pc.Pin?
    case Submit => pc.Ready?
    case PushCall(_) => pc.Push?
  }

  /** The intent decisions at the top of process_job: a recheck may only retain its own candidate, and any
      intent at all keeps a shared cache entry from replacing this run's candidate. */
  function AcquirePc(s: JobState, kind: Kind, cache: Option<Receipt>): Pc {
    var intent := Get(s.view, s.row.datasetRef);
    if CancelSeen(s.row) then CancelWrite
    else if kind == RecheckRun && (intent.None? || intent.value.state == Rejected || intent.value.digest != s.local) then Raised
    else if intent.None? && cache.Some? then CacheVerify(cache.value)
    else Prepared(if kind == RecheckRun && intent.Some? then Some(Binding(intent.value)) else None)
  }

  predicate CachePath(a: RunAction) {
    a.Acquire? || a.VerifyCached? || a.PinCached? || a.RecordCached?
  }

  predicate UploadPath(a: RunAction) {
    a.Prepare? || a.ReuseIntent? || a.StartUpload? || a.UploadReturned? || a.GiveUpUpload? || a.AfterUpload?
  }

  predicate SubmitPath(a: RunAction) {
    a.VerifyBytes? || a.RecordVerified? || a.PinVersion? || a.Submit? || a.PushCall?
  }

  /** Taking the lock, and the way through a ready shared cache entry. */
  function CacheStep(s: JobState, k: nat, a: RunAction, remote: Remote): JobState
    requires k in s.threads && RunEnabled(s, k, a, remote) && CachePath(a)
  {
    var pc, ref := s.threads[k].pc, s.row.datasetRef;
    match a
    case Acquire(cache) =>
      var next := AcquirePc(s, s.threads[k].kind, cache);
      At(s.(sources := if next.CacheVerify? || next.Prepared? then Rewritten(s.sources, ref) else s.sources), k, next)
    case VerifyCached => At(s, k, CachePin(pc.receipt))
    case PinCached => At(s.(sources := Pinned(s.sources, ref, pc.receipt.version)), k, CacheRecord(pc.receipt))
    case RecordCached => At(s.(row := UpdateJob(s.row, Update(progress := Some(40)))), k, Ready(pc.receipt))
  }

  /** Uploading a candidate, or taking over its intent. */
  function UploadStep(s: JobState, k: nat, a: RunAction, remote: Remote): JobState
    requires k in s.threads && RunEnabled(s, k, a, remote)
    requires UploadPath(a)
  {
    var pc, ref := s.threads[k].pc, s.row.datasetRef;
    match a
    case Prepare =>
      if pc.saved.Some? then Transition(s, k, {Queued}, WaitingDataset, 35, Verify(pc.saved.value))
      else Transition(s, k, {Queued, UploadingDataset, WaitingDataset}, UploadingDataset, 20, Uploading)
    case ReuseIntent =>
      At(s, k, if s.view[ref].digest != s.local || s.view[ref].state == Rejected then Raised else Uploaded(Binding(s.view[ref])))
    case StartUpload(c, v) =>
      At(s.(children := s.children[c := Child(Receipt(v, s.local), Checked)]), k, AwaitUpload(c))
    case UploadReturned =>
      var c := s.children[pc.child];
      At(s.(children := s.children - {pc.child}), k, if c.stage.success then Uploaded(c.receipt) else Raised)
    case GiveUpUpload => At(s.(children := s.children - {pc.child}), k, Raised)
    case AfterUpload => Transition(s, k, {UploadingDataset}, WaitingDataset, 35, Verify(pc.receipt))
  }

  /** The last cancellation check and the pin of the kernel metadata. */
  function PinStep(s: JobState, k: nat, r: Receipt): JobState
    requires k in s.threads
  {
    if CancelSeen(s.row) then At(s, k, CancelWrite)
    else At(s.(sources := Pinned(s.sources, s.row.datasetRef, r.version)), k, Ready(r))
  }

  /** Verifying the candidate's bytes, pinning it and pushing the kernel. */
  function SubmitStep(s: JobState, k: nat, a: RunAction, remote: Remote): JobState
    requires k in s.threads && RunEnabled(s, k, a, remote)
    requires SubmitPath(a)
  {
    var pc, ref := s.threads[k].pc, s.row.datasetRef;
    match a
    case VerifyBytes => At(s, k, Record(pc.receipt))
    case RecordVerified =>
      At(s.(row := UpdateJob(s.row, Update(progress := Some(40), recheck := Some(NoRecheck), error := Some(NoError)))), k, Pin(pc.receipt))
    case PinVersion => PinStep(s, k, pc.receipt)
    case Submit =>
      var r := Transition(s, k, {Queued, WaitingDataset}, PushingKernel, 45, Push(pc.receipt));
      r.(entered := s.entered || r.threads[k].pc.Push?)
    case PushCall(raises) =>
      At(s.(pushes := s.pushes + [PushRecord(ref, pc.receipt, s.sources, Get(s.view, ref))]), k,
         if raises then Raised else Finish(Complete, 0))
  }

  function RunStep(s: JobState, k: nat, a: RunAction, remote: Remote): JobState
    requires k in s.threads && RunEnabled(s, k, a, remote)
  {
    if CachePath(a) then CacheStep(s, k, a, remote)
    else if UploadPath(a) then UploadStep(s, k, a, remote)
    else SubmitStep(s, k, a, remote)
  }

  // ---- worker threads: monitoring a pushed kernel (finish_kernel_job) ----

  datatype MonitorAction = ReadRow(target: Status, floor: int) | WriteRow | RecordOutput | Deliver | LoseMonitor

  predicate MonitorEnabled(t: Thread, a: MonitorAction) {
    match a
    case ReadRow(target, floor) =>
      && t.pc.Finish?
      && ( || (target == WaitingKernel && t.pc.phase == 0 && floor == 60)
           || (target == WaitingKernel && t.pc.phase == 1 && 60 <= floor <= 80)
           || (target == DownloadingOutput && t.pc.phase == 1 && floor == 85))
    case WriteRow => t.pc.FinishWrite?
    case RecordOutput => t.pc.Finish? && t.pc.phase == 1
    case Deliver => t.pc.Finish? && t.pc.phase == 2
    case LoseMonitor => t.pc.Finish? && t.pc.phase == 1
  }

  /** One look at the row before a monitoring write. */
  function ReadRowStep(s: JobState, k: nat, target: Status, floor: int): JobState
    requires k in s.threads && s.threads[k].pc.Finish?
  {
    var pc, row := s.threads[k].pc, s.row;
    var goal := if target == DownloadingOutput then 2 else 1;
    if Terminal(row.status) then At(s, k, Finish(pc.final, goal))
    else At(s, k, FinishWrite(pc.final, pc.phase, row.status, if CancelSeen(row) then CancelRequested else target, Max(row.progress, floor), goal))
  }

  function MonitoredRow(row: Row, pc: Pc): Row
    requires pc.FinishWrite?
  {
    UpdateJob(row, Update(status := Some(pc.next), progress := Some(pc.progress), error := if pc.phase == 0 then Some(NoError) else None))
  }

  /** The compare-and-set write that belongs to it; a lost race is tried again. */
  function WriteRowStep(s: JobState, k: nat): JobState
    requires k in s.threads && s.threads[k].pc.FinishWrite?
  {
    var pc := s.threads[k].pc;
    if s.row.status == pc.seen then At(s.(row := MonitoredRow(s.row, pc)), k, Finish(pc.final, pc.goal))
    else At(s, k, Finish(pc.final, pc.phase))
  }

  function LostRow(row: Row): Row {
    if Terminal(row.status) then row else UpdateJob(row, Update(error := Some(KernelStatusUnknown)))
  }

  function MonitorStep(s: JobState, k: nat, a: MonitorAction): JobState
    requires k in s.threads && MonitorEnabled(s.threads[k], a)
  {
    var pc, row := s.threads[k].pc, s.row;
    match a
    case ReadRow(target, floor) => ReadRowStep(s, k, target, floor)
    case WriteRow => WriteRowStep(s, k)
    case RecordOutput => s.(row := UpdateJob(row, Update(progress := Some(Max(row.progress, 82)))))
    case Deliver => Exit(s.(row := Finalize(row, pc.final, Update(progress := Some(100), error := Some(NoError)))), k)
    case LoseMonitor => Exit(s.(row := LostRow(row)), k)
  }

  // ---- worker threads: exceptions ----

  datatype ErrorAction =
    | Raise | NoticeCancel | Interrupt
    | Handle(readable: bool, integrity: bool) | Retain | Schedule(recheck: Recheck) | Fail | Cancel

  predicate InHandler(pc: Pc) {
    pc.Raised? || pc.RetainWrite? || pc.RetainSchedule? || pc.FailWrite? || pc.CancelWrite?
  }

  predicate ErrorEnabled(s: JobState, k: nat, a: ErrorAction)
    requires k in s.threads
  {
    var pc := s.threads[k].pc;
    match a
    case Raise => (!InHandler(pc) && !pc.AwaitUpload?) || pc.RetainWrite? || pc.RetainSchedule?
    case NoticeCancel => BeforeSubmission(pc) && !pc.AwaitUpload? && CancelSeen(s.row)
    case Interrupt => !InHandler(pc)
    case Handle(_, _) => pc.Raised?
    case Retain => pc.RetainWrite?
    case Schedule(r) => pc.RetainSchedule? && r in {Scheduled, Exhausted, Blocked}
    case Fail => pc.FailWrite?
    case Cancel => pc.CancelWrite?
  }

  function ErrorStep(s: JobState, k: nat, a: ErrorAction): JobState
    requires k in s.threads && ErrorEnabled(s, k, a)
  {
    var t, row := s.threads[k], s.row;
    match a
    case Raise => At(s, k, if t.kind == Resume || InHandler(t.pc) then FailWrite else Raised)
    case NoticeCancel => At(s, k, CancelWrite)
    case Interrupt => Exit(s.(children := if t.pc.AwaitUpload? then s.children - {t.pc.child} else s.children), k)
    case Handle(readable, integrity) =>
      var i := if readable then Get(s.view, row.datasetRef) else None;
      var retain := row.status in {UploadingDataset, WaitingDataset} && i.Some?
                    && (i.value.state == Unknown || (i.value.state == Accepted && !integrity));
      At(s, k, if retain then RetainWrite else FailWrite)
    case Retain =>
      // unconditional: no status is compared here
      At(s.(row := UpdateJob(row, Update(status := Some(WaitingDataset), error := Some(RetainedCandidate)))), k, RetainSchedule)
    case Schedule(r) => Exit(s.(row := UpdateIfStatus(row, {WaitingDataset}, true, Update(recheck := Some(r)))), k)
    case Fail => Exit(s.(row := Finalize(row, Failed, Update(progress := Some(0), error := Some(OtherError)))), k)
    case Cancel => Exit(s.(row := Finalize(row, Canceled, Update(error := Some(OtherError)))), k)
  }

  // ---- the upload child: runs on when its parent process dies ----

  datatype ChildAction = Rename | SyncIntent | RemoteCall | Respond(success: bool) | SyncOutcome

  predicate ChildEnabled(s: JobState, c: nat, a: ChildAction)
    requires c in s.children
  {
    match a
    case Rename => s.children[c].stage.Checked?
    case SyncIntent => s.children[c].stage.Replaced?
    case RemoteCall => s.children[c].stage.Durable?
    case Respond(success) => s.children[c].stage.Called? && (success ==> s.local == s.children[c].receipt.digest)
    case SyncOutcome => s.children[c].stage.Settled?
  }

  function ChildStep(s: JobState, c: nat, a: ChildAction): JobState
    requires c in s.children && ChildEnabled(s, c, a)
  {
    var ref, child := s.row.datasetRef, s.children[c];
    match a
    case Rename =>
      s.(view := s.view[ref := Intent(child.receipt.version, child.receipt.digest, Unknown)],
         children := s.children[c := child.(stage := Replaced)])
    case SyncIntent =>
      s.(disk := s.view, children := s.children[c := child.(stage := Durable)])
    case RemoteCall =>
      s.(calls := s.calls + [Call(ref, child.receipt)], children := s.children[c := child.(stage := Called)])
    case Respond(success) =>
      s.(view := s.view[ref := Intent(child.receipt.version, child.receipt.digest, if success then Accepted else Rejected)],
         children := s.children[c := child.(stage := Settled(success))])
    case SyncOutcome =>
      s.(disk := s.view, children := s.children[c := child.(stage := Done(child.stage.accepted))])
  }

  // ---- queue, request handlers, scheduler, recheck scanner ----

  function ExpectedStatuses(item: Item): set<Status> {
    if item.ResumeItem? then {PushingKernel, WaitingKernel, DownloadingOutput, CancelRequested} else {Queued}
  }

  /** Upload, assembly and account binding: everything before a job can be run. */
  datatype IntakeAction =
    | StartAssembly | Reserve(bytes: nat) | Consume(bytes: nat)
    | AssemblyDone(content: Content, metadata: seq<string>) | AssemblyFull | AssemblyFailed
    | CommitChunk(bytes: nat) | ExpireUpload
    | Bind(owner: string) | RejectBinding

  datatype ServerAction =
    | Dequeue(item: Item, thread: nat) | SkipItem(item: Item) | Supersede(item: Item)
    | RequestCancel
    | Callback(target: Status, progress: int)
    | ResumeMonitoring
    | ManualRecheck(restart: bool) | ClaimRecheck | PlanRecheck(recheck: Recheck)
    | ChangeLocal(content: Content)

  /** Some item in the queue, or parked, starts the job. */
  predicate Runnable(queue: multiset<Item>) {
    ProcessItem in queue || RecheckItem in queue
  }

  predicate AwaitingAssignment(row: Row) {
    row.dynamic && row.pending
  }

  predicate Retainable(s: JobState) {
    s.row.datasetRef in s.view && s.view[s.row.datasetRef].state != Rejected
  }

  predicate IntakeEnabled(s: JobState, a: IntakeAction) {
    var row := s.row;
    match a
    case StartAssembly => !s.assembly && row.status == Receiving
    case Reserve(_) => s.assembly
    case Consume(_) => s.assembly
    case AssemblyDone(_, _) => s.assembly
    case AssemblyFull => s.assembly
    case AssemblyFailed => s.assembly
    case CommitChunk(_) => !s.assembly && row.status == Receiving
    case ExpireUpload => !s.assembly && row.status == Receiving
    case Bind(owner) => row.status == Queued && AwaitingAssignment(row) && !row.cancelRequested && RewriteOwner(row.datasetRef, owner).Some?
    case RejectBinding => row.status == Queued && AwaitingAssignment(row)
  }

  predicate ServerEnabled(s: JobState, a: ServerAction) {
    var row := s.row;
    match a
    case Dequeue(item, k) =>
      item in s.queue && row.status in ExpectedStatuses(item) && !s.active && !AwaitingAssignment(row) && k !in s.threads
    case SkipItem(item) => item in s.queue && (row.status !in ExpectedStatuses(item) || s.active || AwaitingAssignment(row))
    // a parked item gives its place to a newer one of the job
    case Supersede(item) =>
      item in s.queue && !item.ResumeItem? && Runnable(s.queue - multiset{item}) && row.status == Queued && !s.active && !AwaitingAssignment(row)
    case RequestCancel => !s.assembly && !Terminal(row.status) && row.status != CancelRequested
    case Callback(target, p) =>
      && (row.dynamic ==> !row.pending && row.status !in {Receiving, Assembling})
      && (p == row.progress || row.progress <= p <= 80)
      // the cancellation flag may have been read before the row returned to waiting_dataset
      && (Terminal(row.status) ==> target == row.status)
      && (!Terminal(row.status) ==>
           target == (if row.cancelRequested then CancelRequested else WaitingKernel) || (row.status == WaitingDataset && target == WaitingKernel))
    case ResumeMonitoring => !s.assembly && row.status in {WaitingKernel, CancelRequested} && row.error == KernelStatusUnknown && !s.active
    case ManualRecheck(restart) =>
      // the worker's activity is not consulted here
      && !s.assembly && row.status == WaitingDataset && row.error == RetainedCandidate
      && row.recheck !in {Scheduled, Checking, Blocked} && (row.recheck == Exhausted ==> restart) && Retainable(s)
    case ClaimRecheck =>
      && !s.assembly && row.status == WaitingDataset && !s.active && !row.cancelRequested && row.error == RetainedCandidate
      && row.recheck == Scheduled && Retainable(s)
    case PlanRecheck(r) =>
      && !s.assembly && row.status == WaitingDataset && !s.active && !row.cancelRequested && row.error == RetainedCandidate
      && row.recheck in {NoRecheck, Scheduled} && r in {Scheduled, Exhausted, Blocked}
    case ChangeLocal(_) => true
  }

  function Requeue(s: JobState): (t: JobState)
    ensures t == s.(row := t.row, queue := t.queue)
  {
    if Matches(s.row, {WaitingDataset}, true) then
      s.(row := UpdateJob(s.row, Update(status := Some(Queued), error := Some(NoError), recheck := Some(Checking))),
         queue := s.queue + multiset{RecheckItem})
    else s
  }

  function CancelUpdate(status: Status): Update {
    if status in {Receiving, Assembling, Queued} then
      Update(cancelRequested := Some(true), status := Some(Canceled), error := Some(OtherError))
    else
      Update(cancelRequested := Some(true), status := Some(CancelRequested), error := Some(NoError))
  }

  function IntakeStep(s: JobState, a: IntakeAction): JobState
    requires IntakeEnabled(s, a)
  {
    var row := s.row;
    match a
    case StartAssembly => s.(row := UpdateJob(row, Update(status := Some(Assembling), progress := Some(10))), assembly := true)
    case Reserve(n) => s.(row := UpdateJob(row, Update(reserved := Some(n))))
    case Consume(n) => s.(row := Deduct(row, n))
    case AssemblyDone(content, metadata) =>
      var queued := Matches(row, {Assembling}, false);
      s.(row := UpdateIfStatus(row, {Assembling}, false, Update(status := Some(Queued), progress := Some(15), error := Some(NoError))),
         queue := if queued && !AwaitingAssignment(row) then s.queue + multiset{ProcessItem} else s.queue,
         assembly := false, local := content, sources := metadata)
    case AssemblyFull =>
      s.(row := UpdateIfStatus(row, {Assembling}, false, Update(status := Some(Receiving), error := Some(OtherError))), assembly := false)
    case AssemblyFailed =>
      s.(row := UpdateIfStatus(row, {Assembling}, false, Update(status := Some(Failed), progress := Some(0), error := Some(OtherError))),
         assembly := false)
    case CommitChunk(n) => s.(row := Deduct(row, n))
    case ExpireUpload => s.(row := UpdateJob(row, Update(status := Some(Failed), error := Some(OtherError))))
    case Bind(owner) =>
      s.(row := UpdateJob(row, Update(pending := Some(false), datasetRef := RewriteOwner(row.datasetRef, owner))), queue := s.queue + multiset{ProcessItem})
    case RejectBinding => s.(row := UpdateJob(row, Update(status := Some(Failed), error := Some(OtherError))))
  }

  function ServerStep(s: JobState, a: ServerAction): (t: JobState)
    requires ServerEnabled(s, a)
    ensures t == s.(row := t.row, queue := t.queue, active := t.active, threads := t.threads, local := t.local)
    ensures !a.Dequeue? ==> t.threads == s.threads && t.active == s.active
  {
    var row := s.row;
    match a
    case Dequeue(item, k) =>
      s.(queue := s.queue - multiset{item}, active := true,
         threads := s.threads[k := Thread(if item.RecheckItem? then RecheckRun else if item.ProcessItem? then Process else Resume,
                                          if item.ResumeItem? then Finish(item.final, 0) else Begin)])
    case SkipItem(item) => s.(queue := s.queue - multiset{item})
    case Supersede(item) => s.(queue := s.queue - multiset{item})
    case RequestCancel => s.(row := UpdateJob(row, CancelUpdate(row.status)))
    case Callback(target, p) => s.(row := row.(status := target, progress := p))
    case ResumeMonitoring =>
      s.(row := UpdateJob(row, Update(error := Some(NoError))),
         queue := s.queue + multiset{ResumeItem(if row.cancelRequested then Canceled else Complete)})
    case ManualRecheck(_) => Requeue(s)
    case ClaimRecheck => Requeue(s)
    case PlanRecheck(r) => s.(row := UpdateIfStatus(row, {WaitingDataset}, true, Update(recheck := Some(r))))
    case ChangeLocal(content) => s.(local := content)
  }

  // ---- crash and restart ----

  /** A power failure loses renames that were not yet fsynced and kills the children; the death of the
      service process alone may leave any of its children running. */
  datatype CrashKind = PowerFailure | ProcessDeath(orphans: set<nat>)

  function CrashStep(s: JobState, kind: CrashKind): JobState {
    s.(threads := map[], active := false, queue := multiset{}, assembly := false,
       view := if kind.PowerFailure? then s.disk else s.view,
       children := if kind.PowerFailure? then map[] else map c | c in s.children && c in kind.orphans :: s.children[c],
       recovering := !Terminal(s.row.status) && s.row.status != Receiving)
  }

  datatype Probe = Visible | NotFound | ProbeError

  /** What recovery observes: the kernel probe, a push message in the logs, the intent being readable,
      and the result of redoing an interrupted assembly. */
  datatype Observed = Observed(probe: Probe, pushLogged: bool, readable: bool, assembled: bool,
                               reserved: nat, content: Content, metadata: seq<string>)

  function RecoverFail(s: JobState): (t: JobState)
    ensures t == s.(row := t.row)
  {
    s.(row := UpdateJob(s.row, Update(status := Some(Failed), progress := Some(0), error := Some(OtherError))))
  }

  function RecoverEnqueue(s: JobState, item: Item): (t: JobState)
    ensures t == s.(queue := t.queue)
  {
    if AwaitingAssignment(s.row) then s else s.(queue := s.queue + multiset{item})
  }

  function RunItem(row: Row): Item {
    if row.recheck == Checking then RecheckItem else ProcessItem
  }

  function RecoverStep(s0: JobState, o: Observed): JobState
    requires s0.recovering
  {
    var s := s0.(recovering := false);
    var row, ref := s.row, s.row.datasetRef;
    match row.status
    case Queued => RecoverEnqueue(s, RunItem(row))
    case WaitingKernel => RecoverEnqueue(s, ResumeItem(Complete))
    case DownloadingOutput => RecoverEnqueue(s, ResumeItem(Complete))
    case CancelRequested => RecoverCancel(s, o)
    case PushingKernel => if o.probe == Visible then RecoverEnqueue(s, ResumeItem(Complete)) else RecoverFail(s)
    case UploadingDataset => RecoverCandidate(s, o)
    case WaitingDataset =>
      if row.recheck != Checking && (row.recheck != NoRecheck || row.error == RetainedCandidate) then s
      else RecoverCandidate(s, o)
    case Assembling => RecoverAssembly(s, o)
    case _ => s
  }

  function RecoverCancel(s: JobState, o: Observed): (t: JobState)
    ensures t == s.(row := t.row, queue := t.queue)
  {
    if s.row.progress >= 60 || o.pushLogged then RecoverEnqueue(s, ResumeItem(Canceled))
    else if s.row.progress >= 45 && o.probe == Visible then RecoverEnqueue(s, ResumeItem(Canceled))
    else if s.row.progress >= 45 && o.probe == ProbeError then RecoverFail(s)
    else s.(row := UpdateJob(s.row, Update(status := Some(Canceled), error := Some(OtherError))))
  }

  function RecoverAssembly(s: JobState, o: Observed): (t: JobState)
    ensures t == s.(row := t.row, queue := t.queue, local := t.local, sources := t.sources)
  {
    if o.assembled then
      RecoverEnqueue(s.(row := UpdateJob(s.row, Update(status := Some(Queued), progress := Some(15), error := Some(NoError), reserved := Some(o.reserved))),
                        local := o.content, sources := o.metadata), ProcessItem)
    else RecoverFail(s)
  }

  function RecoverCandidate(s: JobState, o: Observed): (t: JobState)
    ensures t == s.(row := t.row, queue := t.queue)
  {
    var i := Get(s.view, s.row.datasetRef);
    if !o.readable || i.None? || i.value.state == Rejected then RecoverFail(s)
    else if Matches(s.row, {s.row.status}, true) then
      RecoverEnqueue(s.(row := UpdateJob(s.row, Update(status := Some(Queued), error := Some(NoError)))), RunItem(s.row))
    else s
  }

  // ---- the whole step relation ----

  datatype Action =
    | Run(thread: nat, run: RunAction)
    | Monitor(thread: nat, monitor: MonitorAction)
    | Err(thread: nat, err: ErrorAction)
    | Upload(child: nat, step: ChildAction)
    | Intake(intake: IntakeAction)
    | Server(request: ServerAction)
    | Crash(kind: CrashKind)
    | Recover(seen: Observed)

  predicate Enabled(s: JobState, a: Action, remote: Remote) {
    match a
    case Run(k, r) => k in s.threads && RunEnabled(s, k, r, remote)
    case Monitor(k, m) => k in s.threads && MonitorEnabled(s.threads[k], m)
    case Err(k, e) => k in s.threads && ErrorEnabled(s, k, e)
    case Upload(c, u) => c in s.children && ChildEnabled(s, c, u)
    case Intake(i) => !s.recovering && IntakeEnabled(s, i)
    case Server(r) => !s.recovering && ServerEnabled(s, r)
    case Crash(_) => true
    case Recover(_) => s.recovering
  }

  function Step(s: JobState, a: Action, remote: Remote): JobState
    requires Enabled(s, a, remote)
  {
    match a
    case Run(k, r) => RunStep(s, k, r, remote)
    case Monitor(k, m) => MonitorStep(s, k, m)
    case Err(k, e) => ErrorStep(s, k, e)
    case Upload(c, u) => ChildStep(s, c, u)
    case Intake(i) => IntakeStep(s, i)
    case Server(r) => ServerStep(s, r)
    case Crash(kind) => CrashStep(s, kind)
    case Recover(o) => RecoverStep(s, o)
  }

  /** create_job: the row starts receiving, with three times the input size reserved. */
  function Created(datasetRef: string, dynamic: bool, reserved: nat): JobState {
    JobState(Row(Receiving, false, 0, NoError, NoRecheck, dynamic, dynamic, datasetRef, reserved),
             false, map[], multiset{}, map[], map[], map[], [], 0, false, false, [], [], false)
  }
}
