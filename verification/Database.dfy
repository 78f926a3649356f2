/** The jobs table and its atomic row updates.  Every statement of the service that writes
    a job row is one call of a function below; class RelayDb applies them to the table. */
module Database {
  import opened Basics
  import opened Options

  type JobId = nat

  datatype Status =
    | Receiving | Assembling | Queued | UploadingDataset | WaitingDataset | PushingKernel
    | WaitingKernel | CancelRequested | DownloadingOutput | Complete | Failed | Canceled

  predicate Terminal(s: Status) {
    s.Complete? || s.Failed? || s.Canceled?
  }

  /** What the rest of the service reads out of the error column: its prefix. */
  datatype ErrorText = NoError | RetainedCandidate | KernelStatusUnknown | OtherError

  datatype Recheck = NoRecheck | Scheduled | Checking | Exhausted | Blocked

  datatype Row = Row(
    status: Status,
    cancelRequested: bool,      // cancel_requested_at IS NOT NULL
    progress: int,
    error: ErrorText,
    recheck: Recheck,
    dynamic: bool,              // scheduling_mode = 'dynamic'
    pending: bool,              // assignment_state = 'pending'
    datasetRef: string,
    reserved: nat)

  /** The keyword arguments of an update: a column is written iff it is Some. */
  datatype Update = Update(
    nameonly status: Option<Status> := None,
    nameonly cancelRequested: Option<bool> := None,
    nameonly progress: Option<int> := None,
    nameonly error: Option<ErrorText> := None,
    nameonly recheck: Option<Recheck> := None,
    nameonly pending: Option<bool> := None,
    nameonly datasetRef: Option<string> := None,
    nameonly reserved: Option<nat> := None)

  function Or<T>(o: Option<T>, current: T): T {
    match o
    case Some(v) => v
    case None => current
  }

  /** UPDATE jobs SET ...; a terminal status also clears the reservation. */
  function UpdateJob(row: Row, u: Update): Row {
    Row(Or(u.status, row.status), Or(u.cancelRequested, row.cancelRequested), Or(u.progress, row.progress),
        Or(u.error, row.error), Or(u.recheck, row.recheck), row.dynamic, Or(u.pending, row.pending),
        Or(u.datasetRef, row.datasetRef),
        if u.status.Some? && Terminal(u.status.value) then 0 else Or(u.reserved, row.reserved))
  }

  /** The WHERE clause of the compare-and-set update. */
  predicate Matches(row: Row, expected: set<Status>, requireNotCanceled: bool) {
    row.status in expected && (requireNotCanceled ==> !row.cancelRequested)
  }

  function UpdateIfStatus(row: Row, expected: set<Status>, requireNotCanceled: bool, u: Update): Row {
    if Matches(row, expected, requireNotCanceled) then UpdateJob(row, u) else row
  }

  /** One transaction: the outcome is decided against the row it is written to. */
  function Finalize(row: Row, preferred: Status, u: Update): Row {
    if Terminal(row.status) then row
    else
      var outcome := if row.cancelRequested || row.status == CancelRequested then Canceled else preferred;
      UpdateJob(row, u.(status := Some(outcome)))
  }

  /** UPDATE jobs SET reserved_bytes = MAX(0, reserved_bytes - size). */
  function Deduct(row: Row, size: nat): Row {
    row.(reserved := Less(row.reserved, size))
  }

  /** A finalized row is terminal, holds no reservation, is never overwritten, and reports a
      cancellation exactly when one was recorded before it. */
  lemma FinalizeOutcome(row: Row, preferred: Status, u: Update)
    requires Terminal(preferred)
    ensures var r := Finalize(row, preferred, u);
      && Terminal(r.status)
      && (Terminal(row.status) ==> r == row)
      && (!Terminal(row.status) ==> r.reserved == 0)
      && (!Terminal(row.status) && (row.cancelRequested || row.status == CancelRequested) ==> r.status == Canceled)
      && (!Terminal(row.status) && !row.cancelRequested && row.status != CancelRequested ==> r.status == preferred)
  {
  }

  /** A table row: the columns the protocol looks at, and the displayed kernel status. */
  datatype Stored = Stored(row: Row, kernelStatus: string)

  /** The table.  Methods of the original that take a missing job id do nothing; so do these. */
  class RelayDb {
    var jobs: map<JobId, Stored>

    constructor ()
      ensures jobs == map[]
    {
      jobs := map[];
    }

    method CreateJob(job: JobId, row: Row)
      requires job !in jobs
      modifies this
      ensures jobs == old(jobs)[job := Stored(row.(status := Receiving, progress := 0), "")]
    {
      jobs := jobs[job := Stored(row.(status := Receiving, progress := 0), "")];
    }

    method Write(job: JobId, u: Update, kernelStatus: Option<string>)
      modifies this
      ensures job !in old(jobs) ==> jobs == old(jobs)
      ensures job in old(jobs) ==>
                jobs == old(jobs)[job := Stored(UpdateJob(old(jobs)[job].row, u), Or(kernelStatus, old(jobs)[job].kernelStatus))]
    {
      if job in jobs {
        jobs := jobs[job := Stored(UpdateJob(jobs[job].row, u), Or(kernelStatus, jobs[job].kernelStatus))];
      }
    }

    /** Returns whether there was something to write and the row was there and matched; only then is it changed.
        expectedKernel: the kernel status that the writer saw, if it insists on it. */
    method UpdateJobIfStatus(job: JobId, expected: set<Status>, requireNotCanceled: bool, expectedKernel: Option<string>,
                             u: Update, kernelStatus: Option<string>) returns (changed: bool)
      modifies this
      ensures changed <==>
                && (u != Update() || kernelStatus.Some?)
                && job in old(jobs) && old(jobs)[job].row.status in expected
                && (requireNotCanceled ==> !old(jobs)[job].row.cancelRequested)
                && (expectedKernel.Some? ==> old(jobs)[job].kernelStatus == expectedKernel.value)
      ensures changed ==>
                jobs == old(jobs)[job := Stored(UpdateJob(old(jobs)[job].row, u), Or(kernelStatus, old(jobs)[job].kernelStatus))]
      ensures !changed ==> jobs == old(jobs)
    {
      if expected == {} || (u == Update() && kernelStatus.None?) {
        return false;
      }
      changed := job in jobs && Matches(jobs[job].row, expected, requireNotCanceled)
                 && (expectedKernel.None? || jobs[job].kernelStatus == expectedKernel.value);
      if changed {
        Write(job, u, kernelStatus);
      }
    }

    /** Ends a job once: the first call decides, by the cancellation recorded in the row it writes to, and every later
        call only reports that outcome. */
    method FinalizeJob(job: JobId, preferred: Status, u: Update) returns (status: Option<Status>)
      requires Terminal(preferred) && u.status.None?
      modifies this
      ensures status.None? <==> job !in old(jobs)
      ensures jobs.Keys == old(jobs).Keys && forall j :: j in jobs && j != job ==> jobs[j] == old(jobs)[j]
      ensures status.Some? ==> Terminal(status.value) && jobs[job].row.status == status.value
      ensures status.Some? && Terminal(old(jobs)[job].row.status) ==> jobs[job] == old(jobs)[job]
      ensures status.Some? && !Terminal(old(jobs)[job].row.status) ==>
                && jobs[job].row == Finalize(old(jobs)[job].row, preferred, u) && jobs[job].row.reserved == 0
                && status.value == if old(jobs)[job].row.cancelRequested || old(jobs)[job].row.status == CancelRequested then Canceled else preferred
    {
      if job in jobs {
        FinalizeOutcome(jobs[job].row, preferred, u);
        jobs := jobs[job := jobs[job].(row := Finalize(jobs[job].row, preferred, u))];
        status := Some(jobs[job].row.status);
      } else {
        status := None;
      }
    }
  }
}
