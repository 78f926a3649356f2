/** Automatic rechecks of a retained dataset candidate: when they are due, how the scanner claims them,
    and how many one window can hold.  Times are seconds. */
module DatasetRecheck {
  import opened Basics
  import opened Options
  import opened Database

  const INITIAL := 300.0
  const LONGEST := 1800.0
  const WINDOW := 86400.0
  const AFTER_PROGRESS := 15.0

  datatype Job = Job(
    status: Status,
    canceled: bool,
    retained: bool,            // error starts with the retained-candidate prefix
    transient: bool,           // that error names a known transient outcome
    state: Recheck,
    at: Option<real>,
    started: Option<real>,
    count: nat,
    failures: nat)

  /** min(1800, 300 * 2 ** min(failures, 4)) */
  function Backoff(failures: nat): real {
    var d := INITIAL * Power(if failures < 4 then failures else 4) as real;
    if d < LONGEST then d else LONGEST
  }

  function Delay(job: Job, retryAfter: real, progress: bool): real {
    Max(retryAfter, if progress then AFTER_PROGRESS else Backoff(job.failures))
  }

  function ScheduleRecheck(job: Job, now: real, retryAfter: real, progress: bool): Job {
    if !job.status.WaitingDataset? || job.canceled then job
    else
      var started := Or(job.started, now);
      var due := now + Delay(job, retryAfter, progress);
      var exhausted := due >= started + WINDOW;
      job.(started := Some(started), state := if exhausted then Exhausted else Scheduled,
           failures := if progress then 0 else job.failures + 1, at := if exhausted then None else Some(due))
  }

  /** The waits in seconds: after progress 15, otherwise 300, 600, 1200 and then 1800 after the first, second, third
      and every later failure in a row, and never less than the server's Retry-After. */
  function Wait(failures: nat, retryAfter: real, progress: bool): real {
    var least := if progress then 15.0 else if failures == 0 then 300.0 else if failures == 1 then 600.0 else if failures == 2 then 1200.0 else 1800.0;
    if least < retryAfter then retryAfter else least
  }

  /** The next try is planned for that wait after now if this is within 24 hours of the window's beginning; otherwise
      the window is exhausted.  The first failure begins the window, and only progress resets the count of failures. */
  predicate Planned(job: Job, after: Job, now: real, retryAfter: real, progress: bool) {
    && after == job.(started := after.started, state := after.state, failures := after.failures, at := after.at)
    && after.started.Some? && after.started.value == (if job.started.Some? then job.started.value else now)
    && var due := now + Wait(job.failures, retryAfter, progress);
    && (after.state == Scheduled || after.state == Exhausted)
    && (after.state == Scheduled <==> due < after.started.value + 86400.0)
    && (after.state == Scheduled <==> after.at == Some(due)) && (after.state == Exhausted <==> after.at.None?)
    && after.failures == (if progress then 0 else job.failures + 1)
  }

  lemma Planning(job: Job, now: real, retryAfter: real, progress: bool)
    requires job.status.WaitingDataset? && !job.canceled
    ensures Planned(job, ScheduleRecheck(job, now, retryAfter, progress), now, retryAfter, progress)
  {
    hide Backoff;
    BackoffValues(job.failures);
  }

  function BlockRecheck(job: Job): Job {
    if !job.status.WaitingDataset? || job.canceled then job
    else job.(state := Blocked, at := None)
  }

  /** What the scanner sees beside the row: the owner's remaining cooldown, the account and the intent. */
  datatype Sight = Sight(active: bool, cooldown: real, authorized: bool, intentValid: bool)

  predicate Due(job: Job, now: real, s: Sight) {
    && job.status.WaitingDataset? && !s.active && !job.canceled && job.retained
    && job.state.Scheduled? && job.at.Some? && job.at.value <= now
  }

  /** The scanner's claim: the recheck item is enqueued exactly in this case. */
  predicate Claims(job: Job, now: real, s: Sight) {
    Due(job, now, s) && now < Or(job.started, 0.0) + WINDOW && s.cooldown <= 0.0 && s.authorized && s.intentValid
  }

  function Claimed(job: Job): Job {
    job.(status := Queued, retained := false, state := Checking, at := None, count := job.count + 1)
  }

  /** One job of one scan. */
  function Scan(job: Job, now: real, s: Sight): Job {
    if !job.status.WaitingDataset? || s.active || job.canceled || !job.retained then job
    else if job.state.Blocked? || job.state.Exhausted? then job
    else if job.state.NoRecheck? then
      if job.transient then ScheduleRecheck(job, now, 0.0, false) else BlockRecheck(job)
    else if !job.state.Scheduled? || job.at.None? || job.at.value > now then job
    else if now >= Or(job.started, 0.0) + WINDOW then ScheduleRecheck(job, now, 0.0, false)
    else if s.cooldown > 0.0 then job.(at := Some(now + s.cooldown))
    else if !s.authorized || !s.intentValid then BlockRecheck(job)
    else Claimed(job)
  }

  class Scanner {
    var jobs: map<JobId, Job>
    var queue: seq<JobId>       // recheck items

    constructor ()
      ensures jobs == map[] && queue == []
    {
      jobs, queue := map[], [];
    }

    method Schedule(j: JobId, now: real, retryAfter: real, progress: bool)
      modifies this`jobs
      ensures jobs.Keys == old(jobs).Keys && forall i :: i in jobs && i != j ==> jobs[i] == old(jobs)[i]
      ensures j in jobs && (old(jobs)[j].status != WaitingDataset || old(jobs)[j].canceled) ==> jobs[j] == old(jobs)[j]
      ensures j in jobs && old(jobs)[j].status == WaitingDataset && !old(jobs)[j].canceled ==>
                Planned(old(jobs)[j], jobs[j], now, retryAfter, progress)
      ensures jobs == if j in old(jobs) then old(jobs)[j := ScheduleRecheck(old(jobs)[j], now, retryAfter, progress)] else old(jobs)
    {
      hide Planned, Backoff;
      if j !in jobs {
        return;
      }
      var job := jobs[j];
      if job.status == WaitingDataset && !job.canceled { Planning(job, now, retryAfter, progress); }
      if job.status != WaitingDataset || job.canceled {
        assert jobs[j := job] == jobs;
        return;
      }
      var started := if job.started.Some? then job.started.value else now;
      var delay := if progress then AFTER_PROGRESS else Backoff(job.failures);
      if delay < retryAfter {
        delay := retryAfter;
      }
      var due := now + delay;
      job := job.(started := Some(started), failures := if progress then 0 else job.failures + 1);
      if due >= started + WINDOW {
        job := job.(state := Exhausted, at := None);
      } else {
        job := job.(state := Scheduled, at := Some(due));
      }
      jobs := jobs[j := job];
    }

    method Block(j: JobId)
      modifies this`jobs
      ensures jobs == if j in old(jobs) then old(jobs)[j := BlockRecheck(old(jobs)[j])] else old(jobs)
    {
      if j in jobs {
        jobs := jobs[j := BlockRecheck(jobs[j])];
      }
    }

    method ScanJob(j: JobId, now: real, s: Sight)
      requires j in jobs
      modifies this
      ensures jobs == old(jobs)[j := Scan(old(jobs)[j], now, s)]
      ensures queue == old(queue) + if Claims(old(jobs)[j], now, s) then [j] else []
    {
      var job := jobs[j];
      if !job.status.WaitingDataset? || s.active || job.canceled || !job.retained
         || job.state.Blocked? || job.state.Exhausted? {
        assert jobs[j := job] == jobs;
        return;
      }
      if job.state.NoRecheck? {
        if job.transient { Schedule(j, now, 0.0, false); } else { Block(j); }
        return;
      }
      if !job.state.Scheduled? || job.at.None? || job.at.value > now {
        assert jobs[j := job] == jobs;
        return;
      }
      if now >= Or(job.started, 0.0) + WINDOW {
        Schedule(j, now, 0.0, false);
        return;
      }
      if s.cooldown > 0.0 {
        jobs := jobs[j := job.(at := Some(now + s.cooldown))];
        return;
      }
      if !s.authorized || !s.intentValid {
        Block(j);
        return;
      }
      jobs := jobs[j := Claimed(job)];
      queue := queue + [j];
    }

    /** One pass over the listed jobs; each is handled once, and the claimed ones are enqueued in that order. */
    method ScanAll(order: seq<JobId>, now: real, sights: map<JobId, Sight>)
      requires forall i :: 0 <= i < |order| ==> order[i] in jobs && order[i] in sights
      requires forall i, k :: 0 <= i < k < |order| ==> order[i] != order[k]
      modifies this
      ensures jobs.Keys == old(jobs).Keys
      ensures forall j :: j in jobs ==> jobs[j] == if j in order then Scan(old(jobs)[j], now, sights[j]) else old(jobs)[j]
      ensures queue == old(queue) + ClaimedIn(order, old(jobs), now, sights, |order|)
    {
      hide Scan, Claims;
      for i := 0 to |order|
        invariant jobs.Keys == old(jobs).Keys
        invariant forall j :: j in jobs ==> jobs[j] == if j in order[..i] then Scan(old(jobs)[j], now, sights[j]) else old(jobs)[j]
        invariant queue == old(queue) + ClaimedIn(order, old(jobs), now, sights, i)
      {
        assert order[i] !in order[..i];
        ScanJob(order[i], now, sights[order[i]]);
        assert order[..i + 1] == order[..i] + [order[i]];
      }
      assert order[..|order|] == order;
    }
  }

  function ClaimedIn(order: seq<JobId>, jobs: map<JobId, Job>, now: real, sights: map<JobId, Sight>, n: nat): seq<JobId>
    requires n <= |order| && forall i :: 0 <= i < |order| ==> order[i] in jobs && order[i] in sights
  {
    if n == 0 then []
    else ClaimedIn(order, jobs, now, sights, n - 1) + if Claims(jobs[order[n - 1]], now, sights[order[n - 1]]) then [order[n - 1]] else []
  }

  // ---- the history of one job ----

  datatype Event =
    | Scanned(sight: Sight)
    | Starts                                        // a worker takes the queued job
    | Retains(transient: bool)                      // the worker's failure handler retains the candidate
    | Fails(retryAfter: real, progress: bool)       // its next transaction schedules the recheck, and the worker leaves
    | FailsForGood                                  // or blocks it, and the worker leaves
    | Verifies                                      // the worker verified the candidate
    | Moves(to: Status, cancel: bool)               // any other write of the status
    | Restarts(valid: bool)                         // the service restarts
    | Manual(restart: bool, intentUsable: bool)

  datatype Life = Life(job: Job, active: bool, clock: real)

  predicate Possible(x: Life, e: Event, now: real) {
    && x.clock <= now
    && match e
       case Scanned(s) => s.active == x.active
       case Starts => x.job.status.Queued? && !x.active
       case Retains(_) => x.active && !Terminal(x.job.status)
       case Fails(_, _) => x.active
       case FailsForGood => x.active
       case Verifies => x.active
       case Moves(to, _) =>
         // without a worker only callbacks, cancellation and cleanup write the status
         && !to.Queued?
         && (x.active || (!to.UploadingDataset? && !to.WaitingDataset? && !to.PushingKernel?))
       case Restarts(_) => true
       case Manual(_, _) => true
  }

  /** The branch of complete_job for a retained candidate. */
  predicate Restartable(job: Job, restart: bool, intentUsable: bool) {
    && job.status.WaitingDataset? && job.retained && !job.canceled && intentUsable
    && !job.state.Scheduled? && !job.state.Checking? && !job.state.Blocked? && (job.state.Exhausted? ==> restart)
  }

  function Next(x: Life, e: Event, now: real): Life {
    var job := x.job;
    match e
    case Scanned(s) => x.(job := Scan(job, now, s), clock := now)
    case Starts => x.(active := true, clock := now)
    case Retains(transient) => x.(job := job.(status := WaitingDataset, retained := true, transient := transient), clock := now)
    case Fails(retryAfter, progress) => Life(ScheduleRecheck(job, now, retryAfter, progress), false, now)
    case FailsForGood => Life(BlockRecheck(job), false, now)
    case Verifies => x.(job := job.(state := NoRecheck, at := None, retained := false), clock := now)
    case Moves(to, cancel) => Life(job.(status := to, canceled := job.canceled || cancel), x.active && !Terminal(to), now)
    case Restarts(valid) =>
      var requeued := valid && !job.canceled && (job.status.UploadingDataset? ||
                        (job.status.WaitingDataset? && (job.state.Checking? || (job.state.NoRecheck? && !job.retained))));
      Life(if requeued then job.(status := Queued, retained := false) else job, false, now)
    case Manual(restart, usable) =>
      if Restartable(job, restart, usable) then
        x.(job := job.(status := Queued, retained := false, state := Checking, at := None, count := job.count + 1,
                       failures := if restart then 0 else job.failures,
                       started := Some(if restart then now else Or(job.started, now))), clock := now)
      else x.(clock := now)
  }

  /** xs[i] is the job before event es[i], which happens at ts[i]; the clock does not go back. */
  ghost predicate History(xs: seq<Life>, es: seq<Event>, ts: seq<real>) {
    && |xs| == |es| + 1 && |ts| == |es|
    && xs[0].job.started.None? && xs[0].job.state.NoRecheck? && xs[0].job.failures == 0 && !xs[0].active
    && forall i :: 0 <= i < |es| ==> Possible(xs[i], es[i], ts[i]) && xs[i + 1] == Next(xs[i], es[i], ts[i])
  }

  predicate IsClaim(x: Life, e: Event, now: real) {
    e.Scanned? && Claims(x.job, now, e.sight)
  }

  /** Automatic claims since the current window began; a window begins when started changes. */
  function WindowClaims(xs: seq<Life>, es: seq<Event>, ts: seq<real>, k: nat): nat
    requires k < |xs| == |es| + 1 && |ts| == |es|
  {
    if k == 0 || xs[k].job.started != xs[k - 1].job.started then 0
    else WindowClaims(xs, es, ts, k - 1) + if IsClaim(xs[k - 1], es[k - 1], ts[k - 1]) then 1 else 0
  }

  /** No recheck of the current window reported progress. */
  predicate OnlyFailures(xs: seq<Life>, es: seq<Event>, k: nat)
    requires k < |xs| == |es| + 1
  {
    k == 0 || (!(es[k - 1].Fails? && es[k - 1].progress) && (xs[k].job.started != xs[k - 1].job.started || OnlyFailures(xs, es, k - 1)))
  }

  /** Earliest offset of the n-th claim of a window in which every recheck fails. */
  function Earliest(n: nat): real {
    if n == 0 then 0.0 else Earliest(n - 1) + Backoff(n - 1)
  }

  lemma BackoffValues(f: nat)
    ensures Backoff(0) == 300.0 && Backoff(1) == 600.0 && Backoff(2) == 1200.0 && (f >= 3 ==> Backoff(f) == 1800.0)
  {
    assert Power(0) == 1 && Power(1) == 2 && Power(2) == 4 && Power(3) == 8 && Power(4) == 16;
  }

  lemma BackoffGrows(f: nat, g: nat)
    requires f <= g
    ensures AFTER_PROGRESS <= Backoff(f) <= Backoff(g)
  {
    BackoffValues(f);
    BackoffValues(g);
  }

  lemma {:induction false} EarliestValue(n: nat)
    requires n >= 3
    ensures Earliest(n) == 2100.0 + 1800.0 * (n - 3) as real
  {
    BackoffValues(n - 1);
    if n > 3 {
      EarliestValue(n - 1);
    } else {
      assert Earliest(3) == Earliest(2) + Backoff(2) && Earliest(2) == Earliest(1) + Backoff(1) && Earliest(1) == Backoff(0);
    }
  }

  /** With n claims so far in the window begun at s: what the clock and the due time have reached. */
  predicate Paced(x: Life, n: nat, s: real, reached: real, next: real) {
    && s + reached <= x.clock
    && (n > 0 ==> reached < WINDOW)
    && (x.job.state.Scheduled? && x.job.at.Some? ==> s + next <= x.job.at.value)
  }

  predicate Windowed(x: Life, n: nat, onlyFailures: bool) {
    && (x.job.started.None? ==> n == 0 && x.job.failures == 0 && !x.job.state.Scheduled?)
    && (x.job.started.Some? ==> Paced(x, n, x.job.started.value, AFTER_PROGRESS * n as real, AFTER_PROGRESS * (n + 1) as real))
    && (x.job.started.Some? && onlyFailures ==>
          && Paced(x, n, x.job.started.value, Earliest(n), Earliest(n + 1))
          && x.job.failures >= n && (x.job.state.Scheduled? ==> x.job.failures >= n + 1))
  }

  lemma Reschedules(x: Life, job: Job, now: real, retryAfter: real, progress: bool, n: nat, onlyFailures: bool)
    requires Windowed(x, n, onlyFailures) && x.clock <= now && job.started == x.job.started && job.failures == x.job.failures
    requires job.status.WaitingDataset? && !job.canceled && (onlyFailures ==> !progress)
    ensures var j := ScheduleRecheck(job, now, retryAfter, progress); forall active :: Windowed(Life(j, active, now), n, onlyFailures)
    ensures x.job.started.Some? ==> ScheduleRecheck(job, now, retryAfter, progress).started == x.job.started
  {
    hide Earliest, Backoff;
    assert Earliest(n + 1) == Earliest(n) + Backoff(n) by { EarliestNext(n); }
    BackoffGrows(0, job.failures);
    if onlyFailures && x.job.started.Some? { BackoffGrows(n, job.failures); }
    if x.job.started.None? { EarliestZero(); }
  }

  lemma EarliestNext(n: nat)
    ensures Earliest(n + 1) == Earliest(n) + Backoff(n)
  {
  }

  lemma EarliestZero()
    ensures Earliest(0) == 0.0 && Earliest(1) == Backoff(0)
  {
    hide Backoff;
  }

  lemma WindowedNext(x: Life, e: Event, now: real, n: nat, onlyFailures: bool)
    requires Windowed(x, n, onlyFailures) && Possible(x, e, now)
    requires onlyFailures ==> !(e.Fails? && e.progress)
    ensures var y := Next(x, e, now);
      Windowed(y, if y.job.started != x.job.started then 0 else if IsClaim(x, e, now) then n + 1 else n, onlyFailures)
  {
    hide Earliest, Backoff, Windowed, Scan, ScheduleRecheck;
    var y := Next(x, e, now);
    match e {
      case Scanned(s) => ScanWindowed(x, now, s, n, onlyFailures);
      case Fails(r, p) => FailsWindowed(x, e, now, n, onlyFailures);
      case Manual(restart, usable) => ManualWindowed(x, restart, usable, now, n, onlyFailures);
      case _ => QuietWindowed(x, y, n, onlyFailures);
    }
  }

  lemma QuietWindowed(x: Life, y: Life, n: nat, onlyFailures: bool)
    requires Windowed(x, n, onlyFailures) && x.clock <= y.clock
    requires y.job.started == x.job.started && y.job.failures == x.job.failures
    requires (y.job.state == x.job.state && y.job.at == x.job.at) || !y.job.state.Scheduled?
    ensures Windowed(y, n, onlyFailures)
  {
    hide Earliest, Backoff;
  }

  lemma FailsWindowed(x: Life, e: Event, now: real, n: nat, onlyFailures: bool)
    requires Windowed(x, n, onlyFailures) && e.Fails? && Possible(x, e, now) && (onlyFailures ==> !e.progress)
    ensures var y := Next(x, e, now); Windowed(y, if y.job.started != x.job.started then 0 else n, onlyFailures)
  {
    hide Earliest, Backoff, Windowed;
    if x.job.canceled || !x.job.status.WaitingDataset? {
      QuietWindowed(x, Next(x, e, now), n, onlyFailures);
    } else {
      Reschedules(x, x.job, now, e.retryAfter, e.progress, n, onlyFailures);
      NoWindowNoClaims(x, n, onlyFailures);
    }
  }

  lemma NoWindowNoClaims(x: Life, n: nat, onlyFailures: bool)
    requires Windowed(x, n, onlyFailures)
    ensures x.job.started.None? ==> n == 0
  {
  }

  lemma ManualWindowed(x: Life, restart: bool, usable: bool, now: real, n: nat, onlyFailures: bool)
    requires Windowed(x, n, onlyFailures) && x.clock <= now
    ensures var y := Next(x, Manual(restart, usable), now); Windowed(y, if y.job.started != x.job.started then 0 else n, onlyFailures)
  {
    hide Earliest, Backoff;
    EarliestZero();
    BackoffGrows(0, 0);
    var y := Next(x, Manual(restart, usable), now);
    if y.job.started == x.job.started && restart && Restartable(x.job, restart, usable) {
      SameInstant(x, now, n, onlyFailures);
    }
  }

  /** A window restarted at the very instant it began holds no claim yet. */
  lemma SameInstant(x: Life, now: real, n: nat, onlyFailures: bool)
    requires Windowed(x, n, onlyFailures) && x.clock <= now && x.job.started == Some(now)
    ensures n == 0
  {
    hide Earliest, Backoff;
  }

  lemma ScanWindowed(x: Life, now: real, s: Sight, n: nat, onlyFailures: bool)
    requires Windowed(x, n, onlyFailures) && Possible(x, Scanned(s), now)
    ensures var y := Next(x, Scanned(s), now);
      Windowed(y, if y.job.started != x.job.started then 0 else if IsClaim(x, Scanned(s), now) then n + 1 else n, onlyFailures)
  {
    hide Earliest, Backoff, ScheduleRecheck, Windowed;
    var y := Next(x, Scanned(s), now);
    NoWindowNoClaims(x, n, onlyFailures);
    if Claims(x.job, now, s) {
      ClaimWindowed(x, now, s, n, onlyFailures);
    } else if y.job == ScheduleRecheck(x.job, now, 0.0, false) && x.job.status.WaitingDataset? && !x.job.canceled {
      Reschedules(x, x.job, now, 0.0, false, n, onlyFailures);
      assert y == Life(y.job, x.active, now);
    } else if y.job.state.Scheduled? && y.job.at != x.job.at {
      PostponeWindowed(x, now, s, n, onlyFailures);
    } else {
      QuietWindowed(x, y, n, onlyFailures);
    }
  }

  lemma ClaimWindowed(x: Life, now: real, s: Sight, n: nat, onlyFailures: bool)
    requires Windowed(x, n, onlyFailures) && x.clock <= now && Claims(x.job, now, s)
    ensures Windowed(Life(Claimed(x.job), x.active, now), n + 1, onlyFailures)
  {
    hide Earliest, Backoff;
  }

  lemma PostponeWindowed(x: Life, now: real, s: Sight, n: nat, onlyFailures: bool)
    requires Windowed(x, n, onlyFailures) && x.clock <= now && Due(x.job, now, s) && s.cooldown > 0.0
    ensures Windowed(Life(x.job.(at := Some(now + s.cooldown)), x.active, now), n, onlyFailures)
  {
    hide Earliest, Backoff;
  }

  lemma {:induction false} AlwaysWindowed(xs: seq<Life>, es: seq<Event>, ts: seq<real>, k: nat)
    requires History(xs, es, ts) && k < |xs|
    ensures Windowed(xs[k], WindowClaims(xs, es, ts, k), OnlyFailures(xs, es, k))
  {
    hide Earliest, Backoff, Next, Possible, Windowed, IsClaim;
    if k == 0 {
      FirstWindow(xs[0], OnlyFailures(xs, es, 0));
    } else {
      AlwaysWindowed(xs, es, ts, k - 1);
      var n, f := WindowClaims(xs, es, ts, k - 1), OnlyFailures(xs, es, k - 1);
      Weaken(xs[k - 1], n, f);
      if OnlyFailures(xs, es, k) && !f {
        // the window is new: its first failure decides
        NewWindow(xs[k - 1], es[k - 1], ts[k - 1], n);
      } else {
        WindowedNext(xs[k - 1], es[k - 1], ts[k - 1], n, OnlyFailures(xs, es, k));
      }
    }
  }

  lemma Weaken(x: Life, n: nat, onlyFailures: bool)
    requires Windowed(x, n, onlyFailures)
    ensures Windowed(x, n, false)
  {
  }

  lemma FirstWindow(x: Life, onlyFailures: bool)
    requires x.job.started.None? && x.job.failures == 0 && x.job.state.NoRecheck?
    ensures Windowed(x, 0, onlyFailures)
  {
  }

  lemma NewWindow(x: Life, e: Event, now: real, n: nat)
    requires Windowed(x, n, false) && Possible(x, e, now) && !(e.Fails? && e.progress) && Next(x, e, now).job.started != x.job.started
    ensures Windowed(Next(x, e, now), 0, true)
  {
    hide Earliest, Backoff;
    EarliestZero();
    BackoffGrows(0, 0);
  }

  /** With a non-decreasing clock a window holds at most 5759 automatic claims, and at most 49 when every
      recheck of it fails without progress. */
  lemma ClaimsPerWindow(xs: seq<Life>, es: seq<Event>, ts: seq<real>, k: nat)
    requires History(xs, es, ts) && k < |xs|
    ensures WindowClaims(xs, es, ts, k) <= 5759
    ensures OnlyFailures(xs, es, k) ==> WindowClaims(xs, es, ts, k) <= 49
  {
    hide Earliest, Backoff, Next, Possible, IsClaim, WindowClaims, OnlyFailures;
    AlwaysWindowed(xs, es, ts, k);
    var n := WindowClaims(xs, es, ts, k);
    if n >= 3 { EarliestValue(n); }
  }

  // ---- no claim comes too early ----

  /** Until time t the scanner cannot claim the job. */
  predicate HeldUntil(x: Life, t: real) {
    || t <= x.clock
    || x.job.canceled
    || (!x.active && !x.job.status.Queued? && !x.job.status.UploadingDataset?
        && (x.job.state.Exhausted? || x.job.state.Blocked? || (x.job.state.Scheduled? && x.job.at.Some? && t <= x.job.at.value)))
  }

  lemma HeldNext(x: Life, e: Event, now: real, t: real)
    requires HeldUntil(x, t) && Possible(x, e, now) && !e.Manual?
    ensures HeldUntil(Next(x, e, now), t)
    ensures IsClaim(x, e, now) ==> t <= now
  {
    hide Backoff;
  }

  lemma {:induction false} HeldLater(xs: seq<Life>, es: seq<Event>, ts: seq<real>, m: nat, k: nat, t: real)
    requires History(xs, es, ts) && m <= k < |xs| && HeldUntil(xs[m], t)
    requires forall i :: m <= i < k ==> !es[i].Manual?
    ensures HeldUntil(xs[k], t)
    decreases k - m
  {
    hide HeldUntil, Next, Possible;
    if m < k {
      HeldLater(xs, es, ts, m, k - 1, t);
      HeldNext(xs[k - 1], es[k - 1], ts[k - 1], t);
    }
  }

  /** After a failure whose recheck could be scheduled, that is, unless a cancellation, a callback or a person came
      between its two transactions, the scanner waits out both the server's Retry-After and the backoff, unless a
      person restarts the recheck in between. */
  lemma ClaimAfterRetryAfter(xs: seq<Life>, es: seq<Event>, ts: seq<real>, m: nat, k: nat)
    requires History(xs, es, ts) && m < k < |es| && es[m].Fails? && xs[m].job.status.WaitingDataset? && IsClaim(xs[k], es[k], ts[k])
    requires forall i :: m < i < k ==> !es[i].Manual?
    ensures ts[k] >= ts[m] + es[m].retryAfter
    ensures ts[k] >= ts[m] + if es[m].progress then AFTER_PROGRESS else Backoff(xs[m].job.failures)
    ensures xs[k].job.at.Some? && xs[k].job.at.value <= ts[k]
  {
    hide Backoff, Next, Possible, HeldUntil;
    var delay := Delay(xs[m].job, es[m].retryAfter, es[m].progress);
    HistoryStep(xs, es, ts, m);
    HistoryStep(xs, es, ts, k);
    FailureHolds(xs[m], es[m], ts[m]);
    HeldLater(xs, es, ts, m + 1, k, ts[m] + delay);
    HeldNext(xs[k], es[k], ts[k], ts[m] + delay);
  }

  lemma HistoryStep(xs: seq<Life>, es: seq<Event>, ts: seq<real>, i: nat)
    requires History(xs, es, ts) && i < |es|
    ensures Possible(xs[i], es[i], ts[i]) && xs[i + 1] == Next(xs[i], es[i], ts[i])
  {
    hide Possible, Next;
  }

  lemma FailureHolds(x: Life, e: Event, now: real)
    requires e.Fails? && x.job.status.WaitingDataset? && Possible(x, e, now)
    ensures HeldUntil(Next(x, e, now), now + Delay(x.job, e.retryAfter, e.progress))
  {
    hide Backoff;
  }

  // ---- and no claim is left out ----

  /** The scanner's decision about one retained candidate, case by case. */
  lemma ScanDecides(job: Job, now: real, s: Sight)
    ensures var after := Scan(job, now, s);
      var open := job.status == WaitingDataset && !s.active && !job.canceled && job.retained;
      var due := open && job.state == Scheduled && job.at.Some? && job.at.value <= now;
      var within := now < (if job.started.Some? then job.started.value else 0.0) + 86400.0;
      && (Claims(job, now, s) <==> due && within && s.cooldown <= 0.0 && s.authorized && s.intentValid)
      && (Claims(job, now, s) ==> after == job.(status := Queued, retained := false, state := Checking, at := None, count := job.count + 1))
      && (due && !within && job.started.Some? ==> Planned(job, after, now, 0.0, false) && after.state == Exhausted)
      && (due && within && s.cooldown > 0.0 ==> after == job.(at := Some(now + s.cooldown)))
      && (due && within && s.cooldown <= 0.0 && !(s.authorized && s.intentValid) ==> after == job.(state := Blocked, at := None))
      && (open && job.state == NoRecheck ==>
            if job.transient then Planned(job, after, now, 0.0, false) else after == job.(state := Blocked, at := None))
      && (!due && !(open && job.state == NoRecheck) ==> after == job)
  {
    hide Planned, Backoff;
    if job.status == WaitingDataset && !job.canceled {
      Planning(job, now, 0.0, false);
      if job.started.Some? && now >= job.started.value + 86400.0 { LateIsExhausted(job, now); }
    }
  }

  lemma LateIsExhausted(job: Job, now: real)
    requires job.status == WaitingDataset && !job.canceled && job.started.Some? && now >= job.started.value + 86400.0
    ensures ScheduleRecheck(job, now, 0.0, false).state == Exhausted
  {
    hide Backoff;
    BackoffGrows(0, job.failures);
  }

  /** The candidate of a failure at m waits for its due time, and nobody else has touched it. */
  predicate Awaits(x: Life, start: Life, due: real) {
    && x.job == start.job && !x.active && x.job.status == WaitingDataset && !x.job.canceled && x.job.retained
    && x.job.state == Scheduled && x.job.at == Some(due)
  }

  lemma AwaitsNext(x: Life, e: Event, now: real, start: Life, due: real)
    requires Awaits(x, start, due) && Possible(x, e, now) && !e.Moves? && (e.Scanned? ==> now < due)
    ensures Awaits(Next(x, e, now), start, due)
  {
    hide Backoff, ScheduleRecheck;
  }

  lemma {:induction false} StillAwaits(xs: seq<Life>, es: seq<Event>, ts: seq<real>, m: nat, k: nat, due: real)
    requires History(xs, es, ts) && m <= k < |xs| && Awaits(xs[m], xs[m], due)
    requires forall i :: m <= i < k ==> !es[i].Moves? && (es[i].Scanned? ==> ts[i] < due)
    ensures Awaits(xs[k], xs[m], due)
    decreases k - m
  {
    hide Awaits, Next, Possible;
    if m < k {
      StillAwaits(xs, es, ts, m, k - 1, due);
      HistoryStep(xs, es, ts, k - 1);
      AwaitsNext(xs[k - 1], es[k - 1], ts[k - 1], xs[m], due);
    }
  }

  /** After a failure of a retained candidate the first scan at or after the due time, if it comes within 24 hours of
      the window's beginning, claims it: with the account authorized, the intent valid and no cooldown, and unless
      a callback or a cancellation wrote the status.  Restarts of the service and refused manual rechecks do not matter,
      and no scan claims it before. */
  lemma ClaimedWhenDue(xs: seq<Life>, es: seq<Event>, ts: seq<real>, m: nat, k: nat)
    requires History(xs, es, ts) && m < k < |es| && es[m].Fails?
    requires var job := xs[m].job; job.status == WaitingDataset && !job.canceled && job.retained
    requires var job, due := xs[m].job, ts[m] + Wait(xs[m].job.failures, es[m].retryAfter, es[m].progress);
      var start := if job.started.Some? then job.started.value else ts[m];
      && (forall i :: m < i < k ==> !es[i].Moves? && (es[i].Scanned? ==> ts[i] < due))
      && es[k].Scanned? && due <= ts[k] < start + 86400.0
      && es[k].sight.cooldown <= 0.0 && es[k].sight.authorized && es[k].sight.intentValid
    ensures xs[k + 1].job.status == Queued && xs[k + 1].job.state == Checking && xs[k + 1].job.count == xs[m].job.count + 1
    ensures forall i :: m < i < k ==> !IsClaim(xs[i], es[i], ts[i])
  {
    hide Backoff, Planned, ScheduleRecheck, Next, Possible, Awaits;
    var x := xs[m + 1];
    var due := ts[m] + Wait(xs[m].job.failures, es[m].retryAfter, es[m].progress);
    HistoryStep(xs, es, ts, m);
    HistoryStep(xs, es, ts, k);
    FailureAwaits(xs[m], es[m], ts[m], ts[k]);
    forall i | m < i <= k ensures Awaits(xs[i], x, due) { StillAwaits(xs, es, ts, m + 1, i, due); }
    ClaimsNow(xs[k], x, es[k], ts[k], due);
    forall i | m < i < k ensures !IsClaim(xs[i], es[i], ts[i]) {
      NotYet(xs[i], x, es[i], ts[i], due);
    }
  }

  lemma FailureAwaits(x: Life, e: Event, now: real, later: real)
    requires Possible(x, e, now) && e.Fails? && x.job.status == WaitingDataset && !x.job.canceled && x.job.retained
    requires var due := now + Wait(x.job.failures, e.retryAfter, e.progress);
      due <= later < (if x.job.started.Some? then x.job.started.value else now) + 86400.0
    ensures var y := Next(x, e, now);
      && Awaits(y, y, now + Wait(x.job.failures, e.retryAfter, e.progress))
      && y.job.started == Some(if x.job.started.Some? then x.job.started.value else now) && y.job.count == x.job.count
  {
    hide Backoff, ScheduleRecheck, Wait;
    Planning(x.job, now, e.retryAfter, e.progress);
  }

  lemma ClaimsNow(x: Life, start: Life, e: Event, now: real, due: real)
    requires Awaits(x, start, due) && Possible(x, e, now) && e.Scanned? && due <= now && start.job.started.Some? && now < start.job.started.value + 86400.0
    requires e.sight.cooldown <= 0.0 && e.sight.authorized && e.sight.intentValid
    ensures var job := Next(x, e, now).job; job.status == Queued && job.state == Checking && job.count == start.job.count + 1
  {
    hide Backoff, Planned;
    ScanDecides(x.job, now, e.sight);
  }

  lemma NotYet(x: Life, start: Life, e: Event, now: real, due: real)
    requires Awaits(x, start, due) && (e.Scanned? ==> now < due)
    ensures !IsClaim(x, e, now)
  {
  }

  /** What a person's recheck request does: it is accepted exactly for a retained, uncanceled candidate with a usable intent that
      is neither planned, checked nor blocked, and after an exhausted window only as an explicit restart, which begins a new
      window without failures. */
  lemma ManualDecides(x: Life, restart: bool, usable: bool, now: real)
    ensures var job, y := x.job, Next(x, Manual(restart, usable), now);
      var accepted := job.status == WaitingDataset && job.retained && !job.canceled && usable
                      && (job.state == NoRecheck || (job.state == Exhausted && restart));
      && y == x.(job := y.job, clock := now)
      && (!accepted ==> y.job == job)
      && (accepted ==> y.job == job.(status := Queued, retained := false, state := Checking, at := None, count := job.count + 1,
                                     failures := y.job.failures, started := y.job.started))
      && (accepted && restart ==> y.job.failures == 0 && y.job.started == Some(now))
      && (accepted && !restart ==> y.job.failures == job.failures && y.job.started == (if job.started.Some? then job.started else Some(now)))
  {
  }

  // ---- exhausted and blocked ----

  predicate Settled(x: Life, state: Recheck) {
    x.job.state == state && !x.active && !x.job.status.Queued? && !x.job.status.UploadingDataset?
  }

  /** A blocked candidate stays blocked whatever happens; an exhausted one is only left by an explicit restart. */
  lemma {:induction false} SettledStays(xs: seq<Life>, es: seq<Event>, ts: seq<real>, m: nat, k: nat)
    requires History(xs, es, ts) && m <= k < |xs|
    requires Settled(xs[m], Blocked) || (Settled(xs[m], Exhausted) && forall i :: m <= i < k && es[i].Manual? ==> !es[i].restart)
    ensures Settled(xs[k], xs[m].job.state)
    ensures k < |es| ==> !IsClaim(xs[k], es[k], ts[k])
    decreases k - m
  {
    hide Backoff;
    if m < k {
      SettledStays(xs, es, ts, m, k - 1);
    }
  }
}
