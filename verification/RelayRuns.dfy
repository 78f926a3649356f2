/** Whole runs of the service over a table of jobs: any interleaving of their steps with new jobs,
    versions appearing on Kaggle, power failures and deaths of the service process. */
module RelayRuns {
  import opened Options
  import opened Database
  import opened KaggleRefs
  import opened JobProtocol
  import opened JobInvariants
  import opened JobOnward

  datatype World = World(jobs: map<JobId, JobState>, remote: Remote)

  datatype Event =
    | Create(id: JobId, datasetRef: string, dynamic: bool, reserved: nat)
    | Act(job: JobId, action: Action)
    | Publish(ref: string, version: nat, content: Content)
    | PowerCut
    | Restart(orphans: set<(JobId, nat)>)   // the service dies; these upload children live on

  predicate Possible(w: World, e: Event) {
    match e
    case Create(id, _, _, _) => id !in w.jobs
    case Act(j, a) => j in w.jobs && !a.Crash? && Enabled(w.jobs[j], a, w.remote)
    case Publish(ref, version, _) => (ref, version) !in w.remote
    case PowerCut => true
    case Restart(_) => true
  }

  function CrashOf(j: JobId, e: Event): CrashKind {
    if e.Restart? then ProcessDeath(set p | p in e.orphans && p.0 == j :: p.1) else PowerFailure
  }

  function Next(w: World, e: Event): World
    requires Possible(w, e)
  {
    match e
    case Create(id, ref, dynamic, reserved) => w.(jobs := w.jobs[id := Created(ref, dynamic, reserved)])
    case Act(j, a) => w.(jobs := w.jobs[j := Step(w.jobs[j], a, w.remote)])
    case Publish(ref, version, content) => w.(remote := w.remote[(ref, version) := content])
    case PowerCut => w.(jobs := map j | j in w.jobs :: CrashStep(w.jobs[j], CrashOf(j, e)))
    case Restart(_) => w.(jobs := map j | j in w.jobs :: CrashStep(w.jobs[j], CrashOf(j, e)))
  }

  /** ws[i] is the world before event es[i]; the service starts with an empty table. */
  ghost predicate Execution(ws: seq<World>, es: seq<Event>) {
    && |ws| == |es| + 1
    && ws[0].jobs == map[]
    && forall i :: 0 <= i < |es| ==> Possible(ws[i], es[i]) && ws[i + 1] == Next(ws[i], es[i])
  }

  /** The step a world event is for one job that already exists. */
  function JobAction(j: JobId, e: Event): Option<Action> {
    match e
    case Act(k, a) => if k == j then Some(a) else None
    case PowerCut => Some(Crash(CrashOf(j, e)))
    case Restart(_) => Some(Crash(CrashOf(j, e)))
    case _ => None
  }

  lemma NextJob(w: World, e: Event, j: JobId)
    requires Possible(w, e) && j in w.jobs
    ensures var w', a := Next(w, e), JobAction(j, e);
      && j in w'.jobs
      && (a.None? ==> w'.jobs[j] == w.jobs[j])
      && (a.Some? ==> Enabled(w.jobs[j], a.value, w.remote) && w'.jobs[j] == Step(w.jobs[j], a.value, w.remote))
      && w.remote.Keys <= w'.remote.Keys && (forall v :: v in w.remote ==> w'.remote[v] == w.remote[v])
  {
    hide Enabled, Created, CrashOf, RunStep, MonitorStep, ErrorStep, ChildStep, IntakeStep, ServerStep, CrashStep, RecoverStep;
    CrashEnabled(w.jobs[j], CrashOf(j, e), w.remote);
  }

  lemma CrashEnabled(s: JobState, kind: CrashKind, remote: Remote)
    ensures Enabled(s, Crash(kind), remote)
  {
  }

  ghost predicate Healthy(w: World) {
    forall j :: j in w.jobs ==> Inv(w.jobs[j], w.remote)
  }

  lemma NextHealthy(w: World, e: Event)
    requires Healthy(w) && Possible(w, e)
    ensures Healthy(Next(w, e))
  {
    hide Inv, Step, Enabled, Created, CrashStep;
    var w' := Next(w, e);
    forall j | j in w'.jobs ensures Inv(w'.jobs[j], w'.remote) {
      if j in w.jobs {
        NextJob(w, e, j);
        if JobAction(j, e).Some? { StepInv(w.jobs[j], JobAction(j, e).value, w.remote); }
        RemoteGrowth(w'.jobs[j], w.remote, w'.remote);
      } else {
        CreatedInv(e.datasetRef, e.dynamic, e.reserved, w'.remote);
      }
    }
  }

  /** Every invariant of every job holds in every world of every execution. */
  lemma {:induction false} AlwaysHealthy(ws: seq<World>, es: seq<Event>, i: nat)
    requires Execution(ws, es) && i < |ws|
    ensures Healthy(ws[i])
  {
    hide Inv, Next, Possible;
    if i > 0 {
      AlwaysHealthy(ws, es, i - 1);
      NextHealthy(ws[i - 1], es[i - 1]);
    }
  }

  lemma OnwardReflexive(s: JobState)
    ensures Onward(s, s)
  {
  }

  /** Nothing that a job's earlier state established is undone by any later world, whatever happens in between. */
  lemma {:induction false} AlwaysOnward(ws: seq<World>, es: seq<Event>, j: JobId, i: nat, k: nat)
    requires Execution(ws, es) && i <= k < |ws| && j in ws[i].jobs
    ensures j in ws[k].jobs && Onward(ws[i].jobs[j], ws[k].jobs[j])
    decreases k - i
  {
    hide Inv, Next, Possible, Onward, Step, Enabled;
    if i == k {
      OnwardReflexive(ws[i].jobs[j]);
    } else {
      AlwaysOnward(ws, es, j, i, k - 1);
      AlwaysHealthy(ws, es, k - 1);
      var w, e := ws[k - 1], es[k - 1];
      NextJob(w, e, j);
      if JobAction(j, e).Some? {
        StepOnward(w.jobs[j], JobAction(j, e).value, w.remote);
        OnwardTransitive(ws[i].jobs[j], w.jobs[j], ws[k].jobs[j]);
      }
    }
  }

  // ---- the remote create/version call ----

  predicate IsCall(e: Event, j: JobId) {
    e.Act? && e.job == j && e.action.Upload? && e.action.step.RemoteCall?
  }

  /** The call is made by a child whose Unknown intent is already durable, and no call was made before. */
  lemma CallAfterIntent(s: JobState, c: nat, remote: Remote)
    requires Inv(s, remote) && Enabled(s, Upload(c, RemoteCall), remote)
    ensures s.calls == [] && s.row.datasetRef in s.disk
    ensures s.disk[s.row.datasetRef] == Intent(s.children[c].receipt.version, s.children[c].receipt.digest, Unknown)
    ensures Step(s, Upload(c, RemoteCall), remote).calls == [Call(s.row.datasetRef, s.children[c].receipt)]
  {
    hide Exclusive, Fresh, RowOk, Files, Attended, Threads, History;
    assert ChildOk(s, c);
  }

  /** Over every run a job makes at most one remote create/version call.  Its intent is durable before the
      call, and in every later world the durable intent still names the version and bytes of that call. */
  lemma OneRemoteCall(ws: seq<World>, es: seq<Event>, j: JobId, a: nat)
    requires Execution(ws, es) && a < |es| && IsCall(es[a], j)
    ensures var s, c := ws[a].jobs[j], es[a].action.child;
      && j in ws[a].jobs && c in s.children && s.row.datasetRef in s.disk
      && s.disk[s.row.datasetRef] == Intent(s.children[c].receipt.version, s.children[c].receipt.digest, Unknown)
      && (forall b :: a < b < |es| ==> !IsCall(es[b], j))
      && (forall b :: a < b < |ws| ==> j in ws[b].jobs && s.row.datasetRef in ws[b].jobs[j].disk
                                       && Binding(ws[b].jobs[j].disk[s.row.datasetRef]) == s.children[c].receipt)
  {
    hide Inv, Next, Step, Enabled, RowOnward;
    AlwaysHealthy(ws, es, a);
    var s, act := ws[a].jobs[j], es[a].action;
    UploadNeedsChild(s, act, ws[a].remote);
    CallAfterIntent(s, act.child, ws[a].remote);
    NextJob(ws[a], es[a], j);
    forall b | a < b < |ws|
      ensures j in ws[b].jobs && ws[b].jobs[j].calls != [] && s.row.datasetRef in ws[b].jobs[j].disk
           && Binding(ws[b].jobs[j].disk[s.row.datasetRef]) == s.children[act.child].receipt
    {
      AlwaysOnward(ws, es, j, a, b);
      AlwaysOnward(ws, es, j, a + 1, b);
    }
    forall b | a < b < |es| ensures !IsCall(es[b], j) {
      if IsCall(es[b], j) {
        AlwaysHealthy(ws, es, b);
        UploadNeedsChild(ws[b].jobs[j], es[b].action, ws[b].remote);
        CallAfterIntent(ws[b].jobs[j], es[b].action.child, ws[b].remote);
      }
    }
  }

  lemma UploadNeedsChild(s: JobState, a: Action, remote: Remote)
    requires Enabled(s, a, remote) && a.Upload?
    ensures a.child in s.children
  {
  }

  /** A durable intent never changes its version or its bytes, and its outcome, once known, never changes. */
  lemma IntentsOnlyAdvance(ws: seq<World>, es: seq<Event>, j: JobId, i: nat, k: nat)
    requires Execution(ws, es) && i <= k < |ws| && j in ws[i].jobs
    ensures j in ws[k].jobs
    ensures forall ref :: ref in ws[i].jobs[j].disk ==>
              ref in ws[k].jobs[j].disk && Advances(ws[i].jobs[j].disk[ref], ws[k].jobs[j].disk[ref])
  {
    hide Next, Possible;
    AlwaysOnward(ws, es, j, i, k);
  }

  // ---- the kernel push ----

  predicate IsPush(e: Event, j: JobId) {
    e.Act? && e.job == j && e.action.Run? && e.action.run.PushCall?
  }

  lemma PushFacts(s: JobState, k: nat, raises: bool, remote: Remote)
    requires Inv(s, remote) && Enabled(s, Run(k, PushCall(raises)), remote)
    ensures k in s.threads && s.threads[k].pc.Push? && s.entered && s.pushes == []
    ensures var r, ref := s.threads[k].pc.receipt, s.row.datasetRef;
      && Step(s, Run(k, PushCall(raises)), remote).pushes == [PushRecord(ref, r, s.sources, Get(s.view, ref))]
      && Serves(remote, ref, r)
      && PinnedTo(ref, s.sources, r)
      && (ref in s.view ==> Binding(s.view[ref]) == r)
  {
    hide Exclusive, Fresh, RowOk, Files, Children, History, PinnedTo, Serves;
    assert ThreadOk(s, s.threads[k], remote);
  }

  /** Over every run a job's kernel is pushed at most once.  At that push Kaggle serves the receipt's version with
      the receipt's bytes, every source of the job's dataset is pinned to that version, and an intent names it. */
  lemma OnePush(ws: seq<World>, es: seq<Event>, j: JobId, a: nat)
    requires Execution(ws, es) && a < |es| && IsPush(es[a], j)
    ensures var s, k := ws[a].jobs[j], es[a].action.thread;
      && j in ws[a].jobs && k in s.threads && s.threads[k].pc.Push?
      && var r, ref := s.threads[k].pc.receipt, s.row.datasetRef;
      && (forall b :: a < b < |es| ==> !IsPush(es[b], j))
      && Serves(ws[a].remote, ref, r)
      && (RefSlug(ref) != "" ==> AllPinned(s.sources, ref, r.version))
      && (ref in s.view ==> Binding(s.view[ref]) == r)
  {
    hide Inv, Next, Step, Enabled, RowOnward, AllPinned, RefSlug, Serves;
    AlwaysHealthy(ws, es, a);
    PushFacts(ws[a].jobs[j], es[a].action.thread, es[a].action.run.raises, ws[a].remote);
    NextJob(ws[a], es[a], j);
    forall b | a < b < |es| ensures !IsPush(es[b], j) {
      if IsPush(es[b], j) {
        AlwaysHealthy(ws, es, b);
        AlwaysOnward(ws, es, j, a + 1, b);
        PushFacts(ws[b].jobs[j], es[b].action.thread, es[b].action.run.raises, ws[b].remote);
      }
    }
  }

  lemma PushingEntered(s: JobState, remote: Remote)
    requires Inv(s, remote)
    ensures s.row.status.PushingKernel? ==> s.entered
    ensures s.entered ==> !PrePush(s.row.status)
    ensures Terminal(s.row.status) ==> s.row.reserved == 0
    ensures forall a, b :: a in s.threads && b in s.threads ==> a == b
  {
    hide Fresh, Files, Children, Threads, History;
  }

  /** Once a job was pushing its kernel it never returns to receiving, assembling, queued, uploading or waiting for its dataset. */
  lemma NoWayBackFromPush(ws: seq<World>, es: seq<Event>, j: JobId, i: nat, k: nat)
    requires Execution(ws, es) && i <= k < |ws| && j in ws[i].jobs && ws[i].jobs[j].row.status.PushingKernel?
    ensures j in ws[k].jobs && !PrePush(ws[k].jobs[j].row.status)
  {
    hide Inv, Next, Possible, FilesOnward, PrePush;
    AlwaysHealthy(ws, es, i);
    AlwaysHealthy(ws, es, k);
    AlwaysOnward(ws, es, j, i, k);
    PushingEntered(ws[i].jobs[j], ws[i].remote);
    PushingEntered(ws[k].jobs[j], ws[k].remote);
  }

  /** One worker per job, in every world of every run. */
  lemma OneWorkerPerJob(ws: seq<World>, es: seq<Event>, j: JobId, i: nat)
    requires Execution(ws, es) && i < |ws| && j in ws[i].jobs
    ensures forall a, b :: a in ws[i].jobs[j].threads && b in ws[i].jobs[j].threads ==> a == b
  {
    hide Inv, Next, Possible;
    AlwaysHealthy(ws, es, i);
    PushingEntered(ws[i].jobs[j], ws[i].remote);
  }

  // ---- a push only follows the run's own verification of the same bytes ----

  predicate Verified(pc: Pc, r: Receipt) {
    match pc
    case CachePin(q) => q == r
    case CacheRecord(q) => q == r
    case Record(q) => q == r
    case Pin(q) => q == r
    case Ready(q) => q == r
    case Push(q) => q == r
    case _ => false
  }

  /** The event is thread k of job j finding the bytes of version r.version to be r.digest. */
  predicate Verifies(w: World, e: Event, j: JobId, k: nat, r: Receipt) {
    && e.Act? && e.job == j && e.action.Run? && e.action.thread == k
    && (e.action.run.VerifyBytes? || e.action.run.VerifyCached?)
    && j in w.jobs && Serves(w.remote, w.jobs[j].row.datasetRef, r)
    && (e.action.run.VerifyBytes? ==> w.jobs[j].local == r.digest)
  }

  predicate VerifyAction(s: JobState, a: Action, k: nat, r: Receipt, remote: Remote) {
    && a.Run? && a.thread == k && (a.run.VerifyBytes? || a.run.VerifyCached?)
    && Serves(remote, s.row.datasetRef, r) && (a.run.VerifyBytes? ==> s.local == r.digest)
  }

  predicate Holds(s: JobState, k: nat, r: Receipt) {
    k in s.threads && Verified(s.threads[k].pc, r)
  }

  predicate Kept(s: JobState, t: JobState, k: nat) {
    (k in t.threads <==> k in s.threads) && (k in s.threads ==> t.threads[k] == s.threads[k])
  }

  lemma VerifiedStep(s: JobState, a: Action, remote: Remote, k: nat, r: Receipt)
    requires Enabled(s, a, remote) && Holds(Step(s, a, remote), k, r)
    ensures VerifyAction(s, a, k, r, remote) || Holds(s, k, r)
  {
    hide RunStep, MonitorStep, ErrorStep, ChildStep, IntakeStep, ServerStep, CrashStep, RecoverStep, VerifyAction, Verified;
    match a {
      case Run(q, run) => if q == k { VerifiedRun(s, k, run, remote, r); } else { OtherThread(s, q, run, remote, k); }
      case Monitor(q, m) => MonitorThread(s, q, m, k, r);
      case Err(q, e) => ErrorThread(s, q, e, k, r);
      case Upload(c, u) => ChildThread(s, c, u, k);
      case Intake(i) => IntakeThread(s, i, k);
      case Server(q) => ServerThread(s, q, k, r);
      case Crash(kind) => CrashThread(s, kind, k);
      case Recover(o) => RecoverThreads(s, o, k);
    }
  }

  /** Moving thread q to another point leaves every other thread alone. */
  lemma AtKeeps(s: JobState, q: nat, pc: Pc, k: nat)
    requires q in s.threads
    ensures q in At(s, q, pc).threads && At(s, q, pc).threads[q].pc == pc && (q != k ==> Kept(s, At(s, q, pc), k))
  {
  }

  lemma TransitionThreads(s: JobState, q: nat, expected: set<Status>, status: Status, progress: int, next: Pc, k: nat)
    requires q in s.threads
    ensures var t := Transition(s, q, expected, status, progress, next);
      && q in t.threads && (q != k ==> Kept(s, t, k))
      && (t.threads[q].pc == next || t.threads[q].pc == CancelWrite || t.threads[q].pc == Raised)
  {
    hide Matches, UpdateJob, CancelSeen, At;
    if Matches(s.row, expected, true) {
      AtKeeps(s.(row := UpdateJob(s.row, Update(status := Some(status), progress := Some(progress)))), q, next, k);
    } else {
      AtKeeps(s, q, if CancelSeen(s.row) then CancelWrite else Raised, k);
    }
  }

  /** TransitionThreads for the run actions that make a compare-and-set transition. */
  lemma TransitionRun(s: JobState, q: nat, a: RunAction, remote: Remote, k: nat)
    requires q in s.threads && RunEnabled(s, q, a, remote) && (a.Prepare? || a.AfterUpload? || a.Submit?)
    ensures var t, pc := RunStep(s, q, a, remote), s.threads[q].pc;
      && q in t.threads && (q != k ==> Kept(s, t, k))
      && (forall r :: Verified(t.threads[q].pc, r) ==> Verified(pc, r))
  {
    hide Transition, Serves, RunEnabled, Pinned, Rewritten, AcquirePc, Kept;
    RunPlace(s, q, a, remote);
    var pc := s.threads[q].pc;
    match a {
      case Prepare =>
        if pc.saved.Some? { TransitionThreads(s, q, {Queued}, WaitingDataset, 35, Verify(pc.saved.value), k); }
        else { TransitionThreads(s, q, {Queued, UploadingDataset, WaitingDataset}, UploadingDataset, 20, Uploading, k); }
      case AfterUpload => TransitionThreads(s, q, {UploadingDataset}, WaitingDataset, 35, Verify(pc.receipt), k);
      case Submit => SubmitThreads(s, q, pc.receipt, k);
    }
  }

  lemma SubmitThreads(s: JobState, q: nat, r: Receipt, k: nat)
    requires q in s.threads
    ensures var u := Transition(s, q, {Queued, WaitingDataset}, PushingKernel, 45, Push(r));
      && q in u.threads
      && var t := u.(entered := s.entered || u.threads[q].pc.Push?);
         (q != k ==> Kept(s, t, k)) && (t.threads[q].pc == Push(r) || t.threads[q].pc == CancelWrite || t.threads[q].pc == Raised)
  {
    hide Transition;
    TransitionThreads(s, q, {Queued, WaitingDataset}, PushingKernel, 45, Push(r), k);
  }

  /** A thread comes to hold a verified receipt only by verifying it or by having held it before. */
  predicate Traced(s: JobState, k: nat, a: RunAction, remote: Remote, t: JobState, r: Receipt) {
    Holds(t, k, r) ==> VerifyAction(s, Run(k, a), k, r, remote) || Holds(s, k, r)
  }

  lemma VerifiedRun(s: JobState, k: nat, a: RunAction, remote: Remote, r: Receipt)
    requires k in s.threads && RunEnabled(s, k, a, remote)
    ensures Traced(s, k, a, remote, RunStep(s, k, a, remote), r)
  {
    hide RunEnabled, CacheStep, UploadStep, SubmitStep, Holds, VerifyAction, Verified;
    if a.Prepare? || a.AfterUpload? || a.Submit? {
      TransitionRun(s, k, a, remote, k);
      TransitionTraced(s, k, a, remote, r);
    } else if CachePath(a) {
      CacheTraced(s, k, a, remote, r);
    } else if a.ReuseIntent? || a.StartUpload? || a.UploadReturned? || a.GiveUpUpload? {
      UploadTraced(s, k, a, remote, r);
    } else {
      SubmitTraced(s, k, a, remote, r);
    }
  }

  lemma TransitionTraced(s: JobState, k: nat, a: RunAction, remote: Remote, r: Receipt)
    requires k in s.threads && RunEnabled(s, k, a, remote) && (a.Prepare? || a.AfterUpload? || a.Submit?)
    ensures Traced(s, k, a, remote, RunStep(s, k, a, remote), r)
  {
    hide RunEnabled, UploadStep, SubmitStep, VerifyAction, Verified;
    TransitionRun(s, k, a, remote, k);
  }

  lemma CacheTraced(s: JobState, k: nat, a: RunAction, remote: Remote, r: Receipt)
    requires k in s.threads && RunEnabled(s, k, a, remote) && CachePath(a)
    ensures Traced(s, k, a, remote, CacheStep(s, k, a, remote), r)
  {
    hide Serves, UpdateJob, Pinned, Rewritten, CancelSeen, RunEnabled, Get;
    RunPlace(s, k, a, remote);
    var pc, was := CacheStep(s, k, a, remote).threads[k].pc, s.threads[k].pc;
    match a {
      case Acquire(_) => assert !Verified(pc, r);
      case VerifyCached => assert pc == CachePin(was.receipt);
      case PinCached => assert pc == CacheRecord(was.receipt);
      case RecordCached => assert pc == Ready(was.receipt);
    }
  }

  lemma UploadTraced(s: JobState, k: nat, a: RunAction, remote: Remote, r: Receipt)
    requires k in s.threads && RunEnabled(s, k, a, remote) && (a.ReuseIntent? || a.StartUpload? || a.UploadReturned? || a.GiveUpUpload?)
    ensures Traced(s, k, a, remote, UploadStep(s, k, a, remote), r)
  {
    hide Serves, Transition, RunEnabled;
    var pc := UploadStep(s, k, a, remote).threads[k].pc;
    match a {
      case ReuseIntent => assert !Verified(pc, r);
      case StartUpload(_, _) => assert !Verified(pc, r);
      case UploadReturned => assert !Verified(pc, r);
      case GiveUpUpload => assert !Verified(pc, r);
    }
  }

  lemma PinMoves(s: JobState, q: nat, r: Receipt, k: nat)
    requires q in s.threads
    ensures var t := PinStep(s, q, r);
      q in t.threads && (t.threads[q].pc == CancelWrite || t.threads[q].pc == Ready(r)) && (q != k ==> Kept(s, t, k))
  {
    hide Pinned, CancelSeen, Kept, At;
    AtKeeps(s, q, CancelWrite, k);
    PinnedKeeps(s, q, r, k);
  }

  lemma PinnedKeeps(s: JobState, q: nat, r: Receipt, k: nat)
    requires q in s.threads
    ensures var t := At(s.(sources := Pinned(s.sources, s.row.datasetRef, r.version)), q, Ready(r));
      q in t.threads && t.threads[q].pc == Ready(r) && (q != k ==> Kept(s, t, k))
  {
    hide Pinned;
  }

  lemma SubmitTraced(s: JobState, k: nat, a: RunAction, remote: Remote, r: Receipt)
    requires k in s.threads && RunEnabled(s, k, a, remote) && (a.VerifyBytes? || a.RecordVerified? || a.PinVersion? || a.PushCall?)
    ensures Traced(s, k, a, remote, SubmitStep(s, k, a, remote), r)
  {
    hide Serves, UpdateJob, Pinned, Transition, RunEnabled, Get, PinStep;
    RunPlace(s, k, a, remote);
    var t, was := SubmitStep(s, k, a, remote), s.threads[k].pc;
    match a {
      case VerifyBytes => assert k in t.threads && t.threads[k].pc == Record(was.receipt);
      case RecordVerified => assert k in t.threads && t.threads[k].pc == Pin(was.receipt);
      case PinVersion => PinMoves(s, k, was.receipt, k);
      case PushCall(_) => assert k in t.threads && !Verified(t.threads[k].pc, r);
    }
  }

  lemma OtherThread(s: JobState, q: nat, a: RunAction, remote: Remote, k: nat)
    requires q in s.threads && RunEnabled(s, q, a, remote) && q != k
    ensures Kept(s, RunStep(s, q, a, remote), k)
  {
    hide RunEnabled, CacheStep, UploadStep, SubmitStep, Kept;
    if a.Prepare? || a.AfterUpload? || a.Submit? {
      TransitionRun(s, q, a, remote, k);
    } else if CachePath(a) {
      OtherCacheThread(s, q, a, remote, k);
    } else if a.ReuseIntent? || a.StartUpload? || a.UploadReturned? || a.GiveUpUpload? {
      OtherUploadThread(s, q, a, remote, k);
    } else {
      OtherSubmitThread(s, q, a, remote, k);
    }
  }

  lemma OtherCacheThread(s: JobState, q: nat, a: RunAction, remote: Remote, k: nat)
    requires q in s.threads && RunEnabled(s, q, a, remote) && q != k && CachePath(a)
    ensures Kept(s, CacheStep(s, q, a, remote), k)
  {
    hide Serves, UpdateJob, Pinned, Rewritten, AcquirePc, Transition, CancelSeen, RunEnabled, Get;
    var t := CacheStep(s, q, a, remote);
    match a {
      case Acquire(_) => assert Kept(s, t, k);
      case VerifyCached => assert Kept(s, t, k);
      case PinCached => assert Kept(s, t, k);
      case RecordCached => assert Kept(s, t, k);
    }
  }

  lemma OtherUploadThread(s: JobState, q: nat, a: RunAction, remote: Remote, k: nat)
    requires q in s.threads && RunEnabled(s, q, a, remote) && q != k && (a.ReuseIntent? || a.StartUpload? || a.UploadReturned? || a.GiveUpUpload?)
    ensures Kept(s, UploadStep(s, q, a, remote), k)
  {
    hide Serves, UpdateJob, Pinned, Rewritten, AcquirePc, Transition, CancelSeen, RunEnabled, Get;
    var t := UploadStep(s, q, a, remote);
    match a {
      case ReuseIntent => assert Kept(s, t, k);
      case StartUpload(_, _) => assert Kept(s, t, k);
      case UploadReturned => assert Kept(s, t, k);
      case GiveUpUpload => assert Kept(s, t, k);
    }
  }

  lemma OtherSubmitThread(s: JobState, q: nat, a: RunAction, remote: Remote, k: nat)
    requires q in s.threads && RunEnabled(s, q, a, remote) && q != k && (a.VerifyBytes? || a.RecordVerified? || a.PinVersion? || a.PushCall?)
    ensures Kept(s, SubmitStep(s, q, a, remote), k)
  {
    hide Serves, UpdateJob, Pinned, Rewritten, AcquirePc, Transition, RunEnabled, Get, PinStep;
    var t := SubmitStep(s, q, a, remote);
    match a {
      case VerifyBytes => assert Kept(s, t, k);
      case RecordVerified => assert Kept(s, t, k);
      case PinVersion => RunPlace(s, q, a, remote); PinMoves(s, q, s.threads[q].pc.receipt, k);
      case PushCall(_) => assert Kept(s, t, k);
    }
  }

  lemma MonitorThread(s: JobState, q: nat, a: MonitorAction, k: nat, r: Receipt)
    requires q in s.threads && MonitorEnabled(s.threads[q], a)
    ensures Holds(MonitorStep(s, q, a), k, r) ==> Holds(s, k, r)
  {
    hide UpdateJob, Finalize, CancelSeen, Max, Holds;
    var t := MonitorStep(s, q, a);
    match a {
      case ReadRow(_, _) => if Terminal(s.row.status) { NoLonger(s, q, t, k, r); } else { NoLonger(s, q, t, k, r); }
      case WriteRow => if s.row.status == s.threads[q].pc.seen { NoLonger(s, q, t, k, r); } else { NoLonger(s, q, t, k, r); }
      case RecordOutput => SameThreads(s, t, k, r);
      case Deliver => Gone(s, q, t, k, r);
      case LoseMonitor => Gone(s, q, t, k, r);
    }
  }

  lemma NoLonger(s: JobState, q: nat, t: JobState, k: nat, r: Receipt)
    requires q in s.threads && q in t.threads && t.threads == s.threads[q := t.threads[q]] && (t.threads[q].pc.Finish? || t.threads[q].pc.FinishWrite?)
    ensures Holds(t, k, r) ==> Holds(s, k, r)
  {
  }

  lemma SameThreads(s: JobState, t: JobState, k: nat, r: Receipt)
    requires t.threads == s.threads
    ensures Holds(t, k, r) ==> Holds(s, k, r)
  {
  }

  lemma Gone(s: JobState, q: nat, t: JobState, k: nat, r: Receipt)
    requires t.threads == s.threads - {q}
    ensures Holds(t, k, r) ==> Holds(s, k, r)
  {
  }

  lemma ErrorThread(s: JobState, q: nat, a: ErrorAction, k: nat, r: Receipt)
    requires q in s.threads && ErrorEnabled(s, q, a) && Holds(ErrorStep(s, q, a), k, r)
    ensures Holds(s, k, r)
  {
    hide UpdateJob, Finalize, UpdateIfStatus, CancelSeen, Get;
  }

  lemma ChildThread(s: JobState, c: nat, a: ChildAction, k: nat)
    requires c in s.children && ChildEnabled(s, c, a)
    ensures Kept(s, ChildStep(s, c, a), k)
  {
  }

  lemma IntakeThread(s: JobState, a: IntakeAction, k: nat)
    requires IntakeEnabled(s, a)
    ensures Kept(s, IntakeStep(s, a), k)
  {
    hide UpdateJob, UpdateIfStatus, Deduct, RewriteOwner, Matches, AwaitingAssignment;
  }

  lemma ServerThread(s: JobState, a: ServerAction, k: nat, r: Receipt)
    requires ServerEnabled(s, a) && Holds(ServerStep(s, a), k, r)
    ensures Holds(s, k, r)
  {
    hide UpdateJob, UpdateIfStatus, Requeue, CancelUpdate, ServerEnabled;
  }

  lemma CrashThread(s: JobState, kind: CrashKind, k: nat)
    ensures k !in CrashStep(s, kind).threads
  {
  }

  lemma RecoverThreads(s: JobState, o: Observed, k: nat)
    requires s.recovering
    ensures Kept(s, RecoverStep(s, o), k)
  {
    hide RecoverFail, RecoverEnqueue, RecoverCandidate, RecoverCancel, RecoverAssembly;
  }

  lemma {:induction false} VerifiedBefore(ws: seq<World>, es: seq<Event>, j: JobId, k: nat, r: Receipt, i: nat)
    requires Execution(ws, es) && i < |ws| && j in ws[i].jobs && Holds(ws[i].jobs[j], k, r)
    ensures exists v :: 0 <= v < i && Verifies(ws[v], es[v], j, k, r)
  {
    hide Next, Possible, Step, Enabled, Holds, Serves, Created;
    assert i > 0;
    var w, e := ws[i - 1], es[i - 1];
    if j in w.jobs {
      NextJob(w, e, j);
      if JobAction(j, e).Some? {
        VerifiedStep(w.jobs[j], JobAction(j, e).value, w.remote, k, r);
        if Holds(w.jobs[j], k, r) {
          VerifiedBefore(ws, es, j, k, r, i - 1);
        } else {
          assert Verifies(ws[i - 1], es[i - 1], j, k, r);
        }
      } else {
        VerifiedBefore(ws, es, j, k, r, i - 1);
      }
    } else {
      CreatedNow(w, e, j, k, r);
    }
  }

  lemma CreatedNow(w: World, e: Event, j: JobId, k: nat, r: Receipt)
    requires Possible(w, e) && j !in w.jobs && j in Next(w, e).jobs
    ensures !Holds(Next(w, e).jobs[j], k, r)
  {
    hide CrashStep, Step, Enabled;
  }

  /** A push is only made by a thread that itself verified the receipt it pushes, earlier in the same run. */
  lemma PushFollowsVerification(ws: seq<World>, es: seq<Event>, j: JobId, a: nat)
    requires Execution(ws, es) && a < |es| && IsPush(es[a], j)
    ensures var k := es[a].action.thread;
      && j in ws[a].jobs && k in ws[a].jobs[j].threads && ws[a].jobs[j].threads[k].pc.Push?
      && exists v :: 0 <= v < a && Verifies(ws[v], es[v], j, k, ws[a].jobs[j].threads[k].pc.receipt)
  {
    hide Next, Serves, Inv;
    var k := es[a].action.thread;
    AlwaysHealthy(ws, es, a);
    PushFacts(ws[a].jobs[j], k, es[a].action.run.raises, ws[a].remote);
    VerifiedBefore(ws, es, j, k, ws[a].jobs[j].threads[k].pc.receipt, a);
  }

  // ---- terminal statuses and cancellation ----

  /** Complete, failed and canceled are absorbing in every run and hold no storage reservation. */
  lemma TerminalForever(ws: seq<World>, es: seq<Event>, j: JobId, i: nat, k: nat)
    requires Execution(ws, es) && i <= k < |ws| && j in ws[i].jobs && Terminal(ws[i].jobs[j].row.status)
    ensures j in ws[k].jobs && ws[k].jobs[j].row.status == ws[i].jobs[j].row.status && ws[k].jobs[j].row.reserved == 0
  {
    hide Inv, Next, Possible, FilesOnward;
    AlwaysHealthy(ws, es, k);
    AlwaysOnward(ws, es, j, i, k);
    PushingEntered(ws[k].jobs[j], ws[k].remote);
  }

  /** After a cancellation is recorded it stays recorded, and a job that was not yet pushing never starts to push. */
  lemma CancelStopsPush(ws: seq<World>, es: seq<Event>, j: JobId, i: nat, k: nat)
    requires Execution(ws, es) && i <= k < |ws| && j in ws[i].jobs && ws[i].jobs[j].row.cancelRequested && !ws[i].jobs[j].entered
    ensures j in ws[k].jobs && ws[k].jobs[j].row.cancelRequested && !ws[k].jobs[j].row.status.PushingKernel?
    ensures k < |es| ==> !IsPush(es[k], j)
  {
    hide Inv, Next, Enabled, FilesOnward;
    AlwaysHealthy(ws, es, k);
    AlwaysOnward(ws, es, j, i, k);
    PushingEntered(ws[k].jobs[j], ws[k].remote);
    if k < |es| && IsPush(es[k], j) {
      PushFacts(ws[k].jobs[j], es[k].action.thread, es[k].action.run.raises, ws[k].remote);
    }
  }

  // ---- account binding ----

  predicate IsBinding(e: Event, j: JobId) {
    e.Act? && e.job == j && e.action.Intake? && e.action.intake.Bind?
  }

  lemma BindFacts(s: JobState, owner: string, remote: Remote)
    requires Enabled(s, Intake(Bind(owner)), remote)
    ensures AwaitingAssignment(s.row)
    ensures var row := Step(s, Intake(Bind(owner)), remote).row;
      !AwaitingAssignment(row) && RewriteOwner(s.row.datasetRef, owner) == Some(row.datasetRef)
  {
    hide RewriteOwner;
  }

  /** A dynamic job is bound at most once in any run; from then on its reference never changes. */
  lemma BoundOnce(ws: seq<World>, es: seq<Event>, j: JobId, a: nat)
    requires Execution(ws, es) && a < |es| && IsBinding(es[a], j)
    ensures j in ws[a].jobs && RewriteOwner(ws[a].jobs[j].row.datasetRef, es[a].action.intake.owner).Some?
    ensures forall b :: a < b < |es| ==> !IsBinding(es[b], j)
    ensures forall b :: a < b < |ws| ==>
              j in ws[b].jobs && RewriteOwner(ws[a].jobs[j].row.datasetRef, es[a].action.intake.owner) == Some(ws[b].jobs[j].row.datasetRef)
  {
    hide Inv, Next, Enabled, Step, FilesOnward, RewriteOwner, AwaitingAssignment;
    BindFacts(ws[a].jobs[j], es[a].action.intake.owner, ws[a].remote);
    NextJob(ws[a], es[a], j);
    forall b | a < b < |ws|
      ensures j in ws[b].jobs && !AwaitingAssignment(ws[b].jobs[j].row)
           && ws[b].jobs[j].row.datasetRef == ws[a + 1].jobs[j].row.datasetRef
    {
      AlwaysOnward(ws, es, j, a + 1, b);
    }
    forall b | a < b < |es| ensures !IsBinding(es[b], j) {
      if IsBinding(es[b], j) {
        BindFacts(ws[b].jobs[j], es[b].action.intake.owner, ws[b].remote);
      }
    }
  }
}
