/** The time budgets of waiting for a published version: how one verification process splits its time between
    publication and content, and how the surrounding loop retries.  Times are readings of the monotonic clock. */
module VerificationBudget {
  import opened Basics
  import opened Options

  // ---- one verification process ----

  datatype Phase = Publication | Content
  datatype Line = Silence | PhaseEvent(phase: Phase) | OtherLine | EndOfOutput

  /** One turn of the reading loop: the reading at its top, whether an interruption or a cancellation is seen,
      the line, and the reading taken when that line is a phase event. */
  datatype Turn = Turn(now: real, stop: bool, line: Line, seen: real)

  datatype Ended = Finished | RetryExpired | PublicationTimeout | TransferTimeout | Stopped

  /** One process: its start, the turns of the reading loop, the reading at its end, and the failure its child reports
      if it comes to an orderly end. */
  datatype Process = Process(begun: real, turns: seq<Turn>, finish: real, child: Option<Failure>)

  /** How far the loop read the turns, and why it ended there. */
  datatype Run = Run(read: nat, ended: Ended)

  /** The phase after n turns: that of the last phase event, at first publication. */
  function PhaseAt(turns: seq<Turn>, n: nat): Phase
    requires n <= |turns|
  {
    if n == 0 then Publication
    else if turns[n - 1].line.PhaseEvent? then turns[n - 1].line.phase
    else PhaseAt(turns, n - 1)
  }

  /** When that phase began. */
  function Since(p: Process, n: nat): real
    requires n <= |p.turns|
  {
    if n == 0 then p.begun
    else if p.turns[n - 1].line.PhaseEvent? then p.turns[n - 1].seen
    else Since(p, n - 1)
  }

  /** The intervals of one phase that are over after n turns. */
  function Over(p: Process, phase: Phase, n: nat): real
    requires n <= |p.turns|
  {
    if n == 0 then 0.0
    else
      Over(p, phase, n - 1) +
      if p.turns[n - 1].line.PhaseEvent? && PhaseAt(p.turns, n - 1) == phase then p.turns[n - 1].seen - Since(p, n - 1) else 0.0
  }

  /** The time spent in a phase until t, when n turns were read. */
  function Spent(p: Process, phase: Phase, n: nat, t: real): real
    requires n <= |p.turns|
  {
    Over(p, phase, n) + if PhaseAt(p.turns, n) == phase then t - Since(p, n) else 0.0
  }

  /** The first turn at which the loop ends, from turn i on: a budget is compared with the time spent in its own phase. */
  function Reads(p: Process, publication: real, content: real, retryBudget: Option<real>, i: nat): (r: Run)
    requires i <= |p.turns|
    ensures i <= r.read <= |p.turns|
    decreases |p.turns| - i
  {
    if i == |p.turns| then Run(i, Stopped)
    else
      var turn, phase := p.turns[i], PhaseAt(p.turns, i);
      if retryBudget.Some? && turn.now >= p.begun + retryBudget.value then Run(i, RetryExpired)
      else if turn.stop then Run(i, Stopped)
      else if phase == Publication && Spent(p, Publication, i, turn.now) >= publication then Run(i, PublicationTimeout)
      else if phase == Content && Spent(p, Content, i, turn.now) >= content then Run(i, TransferTimeout)
      else if turn.line.EndOfOutput? then Run(i, Finished)
      else Reads(p, publication, content, retryBudget, i + 1)
  }

  /** Every interval is charged to the phase it was spent in: whatever ends the process, each budget lost exactly the time
      of its own phase, and the reported content time is the time of the content phase. */
  method RunVerification(p: Process, publication: real, content: real, retryBudget: Option<real>)
    returns (r: Run, publicationLeft: real, contentLeft: real, contentSeconds: real)
    ensures r == Reads(p, publication, content, retryBudget, 0)
    ensures publicationLeft == publication - Spent(p, Publication, r.read, p.finish)
    ensures contentLeft == content - Spent(p, Content, r.read, p.finish)
    ensures contentSeconds == Max(0.0, Spent(p, Content, r.read, p.finish))
  {
    publicationLeft, contentLeft := publication, content;
    var phase, lastTick := Publication, p.begun;
    var i, ended := 0, Stopped;
    while i < |p.turns|
      invariant 0 <= i <= |p.turns| && ended == Stopped
      invariant Reads(p, publication, content, retryBudget, 0) == Reads(p, publication, content, retryBudget, i)
      invariant phase == PhaseAt(p.turns, i)
      invariant publicationLeft == publication - Spent(p, Publication, i, lastTick)
      invariant contentLeft == content - Spent(p, Content, i, lastTick)
    {
      var turn := p.turns[i];
      if retryBudget.Some? && turn.now >= p.begun + retryBudget.value {
        ended := RetryExpired;
        break;
      }
      publicationLeft, contentLeft := Charge(phase, publicationLeft, contentLeft, turn.now - lastTick);
      lastTick := turn.now;
      if turn.stop {
        break;
      }
      if phase == Publication && publicationLeft <= 0.0 {
        ended := PublicationTimeout;
        break;
      }
      if phase == Content && contentLeft <= 0.0 {
        ended := TransferTimeout;
        break;
      }
      if turn.line.EndOfOutput? {
        ended := Finished;
        break;
      }
      if turn.line.PhaseEvent? {
        publicationLeft, contentLeft := Charge(phase, publicationLeft, contentLeft, turn.seen - lastTick);
        lastTick, phase := turn.seen, turn.line.phase;
      }
      i := i + 1;
    }
    publicationLeft, contentLeft := Charge(phase, publicationLeft, contentLeft, p.finish - lastTick);
    contentSeconds := Max(0.0, content - contentLeft);
    r := Run(i, ended);
  }

  method Charge(phase: Phase, publicationLeft: real, contentLeft: real, elapsed: real) returns (p: real, c: real)
    ensures p + c == publicationLeft + contentLeft - elapsed
    ensures if phase == Publication then c == contentLeft else p == publicationLeft
  {
    p, c := publicationLeft, contentLeft;
    if phase == Publication { p := p - elapsed; } else { c := c - elapsed; }
  }

  /** The phases share the elapsed time. */
  lemma {:induction false} SharesAddUp(p: Process, n: nat, t: real)
    requires n <= |p.turns|
    ensures Spent(p, Publication, n, t) + Spent(p, Content, n, t) == t - p.begun
  {
    if n > 0 { SharesAddUp(p, n - 1, if p.turns[n - 1].line.PhaseEvent? then p.turns[n - 1].seen else t); }
  }

  /** The readings never go back. */
  predicate Steady(p: Process) {
    && (forall i :: 0 <= i < |p.turns| ==> p.begun <= p.turns[i].now <= p.turns[i].seen <= p.finish)
    && (forall i, k :: 0 <= i < k < |p.turns| ==> p.turns[i].seen <= p.turns[k].now)
    && p.begun <= p.finish
  }

  lemma {:induction false} SinceBefore(p: Process, n: nat, t: real)
    requires Steady(p) && n <= |p.turns| && p.begun <= t && forall i :: 0 <= i < n ==> p.turns[i].seen <= t
    ensures p.begun <= Since(p, n) <= t
  {
    if n > 0 { SinceBefore(p, n - 1, if p.turns[n - 1].line.PhaseEvent? then p.turns[n - 1].seen else t); }
  }

  /** With a steady clock no phase is charged a negative time. */
  lemma {:induction false} SharesNonnegative(p: Process, phase: Phase, n: nat, t: real)
    requires Steady(p) && n <= |p.turns| && p.begun <= t && forall i :: 0 <= i < n ==> p.turns[i].seen <= t
    ensures Spent(p, phase, n, t) >= 0.0
  {
    SinceBefore(p, n, t);
    if n > 0 {
      var last := p.turns[n - 1];
      SharesNonnegative(p, phase, n - 1, if last.line.PhaseEvent? then last.seen else t);
    }
  }

  // ---- classification ----

  datatype Failure =
    | NotPublished
    | Http(status: nat, retryAfter: real)
    | Transport(retryAfter: real)
    | Rejected                                // integrity, progress or fatal

  predicate Hidden(f: Failure) {
    f.Http? && (f.status == 403 || f.status == 404)
  }

  predicate Transient(f: Failure) {
    f.Transport? || (f.Http? && f.status in {408, 409, 429, 500, 502, 503, 504})
  }

  // ---- the loop over attempts ----

  const RETRIES := 5
  const RECOVERY := 600.0

  /** Everything one attempt meets: the readings at its two checks, its process, and the readings after a failure. */
  datatype Attempt = Attempt(
    stop: bool, retryCheck: real, publicationCheck: real, process: Process,
    afterFailure: real, deadlineRead: real, remainingRead: real, jitter: real, wakeRead: real, polls: seq<Poll>)

  /** One turn of the wait between attempts: the clock, and whether the worker was interrupted or the job canceled. */
  datatype Poll = Poll(now: real, stop: bool)

  datatype Waited = Ready | RetryExhausted | PublicationExpired | Raised | Interrupted

  /** When the wait began, and its limits. */
  datatype Limits = Limits(start: real, visibility: real, grace: real, transfer: real)

  /** Delay before the n-th transient retry, n counted from 1. */
  function RetryDelay(n: nat, retryAfter: real, jitter: real): real
    requires n > 0
  {
    Max(retryAfter, Min(60.0, 5.0 * Power(if n - 1 < 4 then n - 1 else 4) as real) + jitter)
  }

  /** The failure that a process ends with, if any; an interruption is raised as it is. */
  function FailureOf(p: Process, ended: Ended): Option<Failure> {
    match ended
    case Finished => p.child
    case RetryExpired => Some(Transport(0.0))
    case PublicationTimeout => Some(NotPublished)
    case TransferTimeout => Some(Transport(0.0))
    case Stopped => Some(Rejected)
  }

  /** How the process of attempt n ran, with the budgets that were left for it. */
  function RunAt(script: seq<Attempt>, n: nat, l: Limits): Run
    requires n < |script|
    decreases n, 2
  {
    var a, d := script[n], Deadline(script, n, l);
    Reads(a.process, l.grace - (a.publicationCheck - l.start - ContentTime(script, n, l)), l.transfer,
          if d.Some? then Some(d.value - a.retryCheck) else None, 0)
  }

  /** The content time that the process of attempt n reports. */
  function ContentSeconds(script: seq<Attempt>, n: nat, l: Limits): real
    requires n < |script|
    decreases n, 3
  {
    Max(0.0, Spent(script[n].process, Content, RunAt(script, n, l).read, script[n].process.finish))
  }

  /** Content seconds of the first n attempts: they are added to publication_start. */
  function ContentTime(script: seq<Attempt>, n: nat, l: Limits): real
    requires n <= |script|
    decreases n, 0
  {
    if n == 0 then 0.0 else ContentTime(script, n - 1, l) + ContentSeconds(script, n - 1, l)
  }

  function Failed(script: seq<Attempt>, n: nat, l: Limits): Option<Failure>
    requires n < |script|
    decreases n, 3
  {
    FailureOf(script[n].process, RunAt(script, n, l).ended)
  }

  predicate FailedTransiently(script: seq<Attempt>, n: nat, l: Limits)
    requires n < |script|
    decreases n, 4
  {
    Failed(script, n, l).Some? && Transient(Failed(script, n, l).value)
  }

  function Transients(script: seq<Attempt>, n: nat, l: Limits): nat
    requires n <= |script|
  {
    if n == 0 then 0 else Transients(script, n - 1, l) + if FailedTransiently(script, n - 1, l) then 1 else 0
  }

  /** 600 seconds after the first transient failure among the first n attempts. */
  function Deadline(script: seq<Attempt>, n: nat, l: Limits): Option<real>
    requires n <= |script|
    decreases n, 1
  {
    if n == 0 then None
    else if Deadline(script, n - 1, l).Some? then Deadline(script, n - 1, l)
    else if FailedTransiently(script, n - 1, l) then Some(script[n - 1].deadlineRead + RECOVERY)
    else None
  }

  /** The n-th attempt passes the two checks in front of it. */
  predicate MayStart(script: seq<Attempt>, n: nat, l: Limits)
    requires n < |script|
  {
    && (Deadline(script, n, l).Some? ==> script[n].retryCheck < Deadline(script, n, l).value)
    && script[n].publicationCheck - l.start - ContentTime(script, n, l) < l.grace
  }

  /** After the n-th attempt's failure the loop goes on to another attempt. */
  predicate GoesOn(script: seq<Attempt>, n: nat, l: Limits)
    requires n < |script|
  {
    var a, failure := script[n], Failed(script, n, l);
    var elapsed := a.afterFailure - l.start - ContentTime(script, n + 1, l);
    && failure.Some?
    && match failure.value
       case NotPublished => elapsed < l.grace
       case Rejected => false
       case _ =>
         if Hidden(failure.value) then l.visibility > 0.0 && elapsed <= l.visibility
         else if Transient(failure.value) then
           var attempts := Transients(script, n + 1, l);
           && attempts <= RETRIES
           && var delay := RetryDelay(attempts, failure.value.retryAfter, a.jitter);
              a.remainingRead + delay < Deadline(script, n + 1, l).value && elapsed + delay < l.grace
         else false
  }

  /** Some reading reached the time to wake up, and no turn before it was stopped. */
  predicate WaitedOut(polls: seq<Poll>, wakeAt: real) {
    exists k :: 0 <= k < |polls| && polls[k].now >= wakeAt && forall i :: 0 <= i < k ==> polls[i].now < wakeAt && !polls[i].stop
  }

  method SleepUntil(polls: seq<Poll>, wakeAt: real) returns (woke: bool)
    ensures woke <==> WaitedOut(polls, wakeAt)
  {
    for i := 0 to |polls|
      invariant forall k :: 0 <= k < i ==> polls[k].now < wakeAt && !polls[k].stop
    {
      if polls[i].now >= wakeAt {
        return true;
      }
      if polls[i].stop {
        return false;
      }
    }
    return false;
  }

  /** After a transient failure the whole delay passed before the next attempt. */
  predicate Rested(script: seq<Attempt>, n: nat, l: Limits)
    requires n < |script|
  {
    var a := script[n];
    FailedTransiently(script, n, l) ==>
      WaitedOut(a.polls, a.wakeRead + RetryDelay(Transients(script, n + 1, l), Failed(script, n, l).value.retryAfter, a.jitter))
  }

  /** The waiting loop of an exact candidate.  `started` attempts were started; each of them met the retry deadline and
      the publication grace, not counting the content time its processes spent, and every attempt but the last ended in a
      failure after which the rules allow another one and, if it was transient, in a full wait.  In the background there
      is one attempt. */
  method WaitDataset(script: seq<Attempt>, l: Limits, background: bool) returns (r: Waited, started: nat)
    ensures started <= |script|
    ensures forall i :: 0 <= i < started ==> MayStart(script, i, l)
    ensures forall i :: 0 <= i < started - 1 ==> GoesOn(script, i, l) && Rested(script, i, l)
    ensures background ==> started <= 1 && (r == Raised <==> started == 1 && Failed(script, 0, l).Some?)
    ensures r == Ready ==> started > 0 && Failed(script, started - 1, l).None?
    ensures r == RetryExhausted && (started == 0 || GoesOn(script, started - 1, l)) ==>
              started < |script| && Deadline(script, started, l).Some? && script[started].retryCheck >= Deadline(script, started, l).value
    ensures r == PublicationExpired ==>
              || (started < |script| && script[started].publicationCheck - l.start - ContentTime(script, started, l) >= l.grace)
              || (started > 0 && Failed(script, started - 1, l) == Some(NotPublished) && !GoesOn(script, started - 1, l))
    ensures r == Interrupted ==> started == |script| || script[started].stop || (started > 0 && !Rested(script, started - 1, l))
    ensures r == Raised ==> started > 0 && (background || !GoesOn(script, started - 1, l))
    ensures r == Raised && !background ==> Failed(script, started - 1, l) != Some(NotPublished) && !Lost(script, started - 1, l)
    ensures r == RetryExhausted && started > 0 && !GoesOn(script, started - 1, l) ==> Lost(script, started - 1, l)
  {
    hide RetryDelay, WaitedOut, Reads, Spent, Steady, ContentTime, ContentSeconds, Transients, Deadline, RunAt, Failed, FailedTransiently;
    NothingYet(script, l);
    var publicationStart := l.start;
    var transientAttempts := 0;
    var retryDeadline: Option<real> := None;
    started := 0;
    while started < |script|
      invariant started <= |script|
      invariant publicationStart == l.start + ContentTime(script, started, l)
      invariant transientAttempts == Transients(script, started, l) <= RETRIES
      invariant retryDeadline == Deadline(script, started, l)
      invariant forall i :: 0 <= i < started ==> MayStart(script, i, l) && GoesOn(script, i, l) && Rested(script, i, l)
      invariant background ==> started == 0
      decreases |script| - started
    {
      var a := script[started];
      if a.stop {
        return Interrupted, started;
      }
      if retryDeadline.Some? && retryDeadline.value - a.retryCheck <= 0.0 {
        return RetryExhausted, started;
      }
      var publicationRemaining := l.grace - (a.publicationCheck - publicationStart);
      if publicationRemaining <= 0.0 {
        return PublicationExpired, started;
      }
      assert MayStart(script, started, l);
      var run, _, _, contentSeconds := RunVerification(a.process, publicationRemaining, l.transfer,
                                                       if retryDeadline.Some? then Some(retryDeadline.value - a.retryCheck) else None);
      AttemptRan(script, started, l);
      AttemptCounts(script, started, l);
      publicationStart := publicationStart + contentSeconds;
      var failed := FailureOf(a.process, run.ended);
      if failed.None? {
        return Ready, started + 1;
      }
      if background {
        return Raised, started + 1;
      }
      var elapsed := a.afterFailure - publicationStart;
      var failure := failed.value;
      if failure.NotPublished? {
        if elapsed >= l.grace {
          return PublicationExpired, started + 1;
        }
      } else if Hidden(failure) {
        if l.visibility <= 0.0 || elapsed > l.visibility {
          return Raised, started + 1;
        }
      } else if Transient(failure) {
        if retryDeadline.None? {
          retryDeadline := Some(a.deadlineRead + RECOVERY);
        }
        transientAttempts := transientAttempts + 1;
        var remaining := Min(retryDeadline.value - a.remainingRead, l.grace - elapsed);
        var delay := RetryDelay(transientAttempts, failure.retryAfter, a.jitter);
        if transientAttempts > RETRIES || delay >= remaining {
          assert !GoesOn(script, started, l);
          return RetryExhausted, started + 1;
        }
        var woke := SleepUntil(a.polls, a.wakeRead + delay);
        if !woke {
          return Interrupted, started + 1;
        }
      } else {
        return Raised, started + 1;
      }
      assert GoesOn(script, started, l);
      started := started + 1;
    }
    return Interrupted, started;
  }

  lemma NothingYet(script: seq<Attempt>, l: Limits)
    ensures ContentTime(script, 0, l) == 0.0 && Transients(script, 0, l) == 0 && Deadline(script, 0, l) == None
  {
  }

  /** The process of attempt n, its content time and its failure. */
  lemma AttemptRan(script: seq<Attempt>, n: nat, l: Limits)
    requires n < |script|
    ensures var a, d := script[n], Deadline(script, n, l);
      var run := Reads(a.process, l.grace - (a.publicationCheck - l.start - ContentTime(script, n, l)), l.transfer,
                       if d.Some? then Some(d.value - a.retryCheck) else None, 0);
      && ContentSeconds(script, n, l) == Max(0.0, Spent(a.process, Content, run.read, a.process.finish))
      && Failed(script, n, l) == FailureOf(a.process, run.ended)
  {
    hide Reads, Spent, ContentTime, Deadline;
  }

  /** What attempt n adds to the loop's variables. */
  lemma AttemptCounts(script: seq<Attempt>, n: nat, l: Limits)
    requires n < |script|
    ensures ContentTime(script, n + 1, l) == ContentTime(script, n, l) + ContentSeconds(script, n, l)
    ensures FailedTransiently(script, n, l) <==> Failed(script, n, l).Some? && Transient(Failed(script, n, l).value)
    ensures Transients(script, n + 1, l) == Transients(script, n, l) + if FailedTransiently(script, n, l) then 1 else 0
    ensures Deadline(script, n + 1, l) ==
            if Deadline(script, n, l).Some? then Deadline(script, n, l)
            else if FailedTransiently(script, n, l) then Some(script[n].deadlineRead + RECOVERY) else None
  {
    hide ContentSeconds, Failed;
  }

  // ---- over all attempts ----

  /** What WaitDataset establishes of the attempts it starts. */
  predicate Allowed(script: seq<Attempt>, started: nat, l: Limits) {
    && started <= |script|
    && (forall i :: 0 <= i < started ==> MayStart(script, i, l))
    && (forall i :: 0 <= i < started - 1 ==> GoesOn(script, i, l))
  }

  /** When the process before attempt n ended, or the wait began. */
  function Before(script: seq<Attempt>, n: nat, l: Limits): real
    requires n <= |script|
  {
    if n == 0 then l.start else script[n - 1].process.finish
  }

  /** The time not spent on content until then: the waits between processes, and each process's publication phase. */
  function NotContent(script: seq<Attempt>, n: nat, l: Limits): real
    requires n <= |script|
  {
    if n == 0 then 0.0
    else
      var p := script[n - 1].process;
      NotContent(script, n - 1, l) + (p.begun - Before(script, n - 1, l)) + Spent(p, Publication, RunAt(script, n - 1, l).read, p.finish)
  }

  lemma {:induction false} TimeIsKept(script: seq<Attempt>, n: nat, l: Limits)
    requires n <= |script| && forall i :: 0 <= i < n ==> Steady(script[i].process)
    ensures NotContent(script, n, l) + ContentTime(script, n, l) == Before(script, n, l) - l.start
  {
    hide RunAt, Spent, Steady;
    if n > 0 {
      var p := script[n - 1].process;
      var read := RunAt(script, n - 1, l).read;
      TimeIsKept(script, n - 1, l);
      assert read <= |p.turns| by { ReadWithin(script, n - 1, l); }
      SharesAddUp(p, read, p.finish);
      SteadyContent(p, read);
    }
  }

  lemma ReadWithin(script: seq<Attempt>, n: nat, l: Limits)
    requires n < |script|
    ensures RunAt(script, n, l).read <= |script[n].process.turns|
  {
  }

  lemma SteadyContent(p: Process, read: nat)
    requires Steady(p) && read <= |p.turns|
    ensures Spent(p, Content, read, p.finish) >= 0.0
  {
    SharesNonnegative(p, Content, read, p.finish);
  }

  /** No attempt starts once the time not spent on content reached the publication grace: for every started attempt all
      waits and all publication phases before it, counted from the beginning, sum to less than the grace. */
  lemma GraceBoundsEveryStart(script: seq<Attempt>, started: nat, l: Limits, i: nat)
    requires Allowed(script, started, l) && i < started && forall k :: 0 <= k < i ==> Steady(script[k].process)
    ensures NotContent(script, i, l) + (script[i].publicationCheck - Before(script, i, l)) < l.grace
  {
    hide RunAt, Spent, Steady, GoesOn, ContentTime, NotContent, Deadline;
    TimeIsKept(script, i, l);
    assert MayStart(script, i, l);
  }

  /** Nor does a started process go on reading in its publication phase once that time reached the grace. */
  lemma GraceBoundsEveryTurn(script: seq<Attempt>, started: nat, l: Limits, i: nat, k: nat)
    requires Allowed(script, started, l) && i < started && forall m :: 0 <= m < i ==> Steady(script[m].process)
    requires k < RunAt(script, i, l).read && PhaseAt(script[i].process.turns, k) == Publication
    ensures NotContent(script, i, l) + (script[i].publicationCheck - Before(script, i, l))
            + Spent(script[i].process, Publication, k, script[i].process.turns[k].now) < l.grace
  {
    hide Spent, Steady, GoesOn, NotContent, ContentTime, Reads;
    TimeIsKept(script, i, l);
    var a, d := script[i], Deadline(script, i, l);
    ReadsOn(a.process, l.grace - (a.publicationCheck - l.start - ContentTime(script, i, l)), l.transfer,
            if d.Some? then Some(d.value - a.retryCheck) else None, 0, k);
  }

  /** Every turn that was read had its phase's budget left. */
  lemma {:induction false} ReadsOn(p: Process, publication: real, content: real, retryBudget: Option<real>, i: nat, k: nat)
    requires i <= |p.turns| && i <= k < Reads(p, publication, content, retryBudget, i).read
    ensures PhaseAt(p.turns, k) == Publication ==> Spent(p, Publication, k, p.turns[k].now) < publication
    ensures PhaseAt(p.turns, k) == Content ==> Spent(p, Content, k, p.turns[k].now) < content
    decreases k - i
  {
    hide Spent;
    if i < k { ReadsOn(p, publication, content, retryBudget, i + 1, k); }
  }

  predicate FirstTransient(script: seq<Attempt>, n: nat, l: Limits)
    requires n < |script|
  {
    FailedTransiently(script, n, l) && forall k :: 0 <= k < n ==> !FailedTransiently(script, k, l)
  }

  /** At most five started attempts follow transient failures, and each attempt after the first of them starts within
      600 seconds of it. */
  lemma {:induction false} RetriesAreBounded(script: seq<Attempt>, started: nat, l: Limits, i: nat)
    requires Allowed(script, started, l) && i < started
    ensures Transients(script, i, l) <= RETRIES
    ensures forall first :: 0 <= first < i && FirstTransient(script, first, l) ==> script[i].retryCheck < script[first].deadlineRead + RECOVERY
  {
    hide FailedTransiently, ContentTime, Failed, GoesOn;
    FewTransients(script, started, l, i);
    forall first | 0 <= first < i && FirstTransient(script, first, l)
      ensures script[i].retryCheck < script[first].deadlineRead + RECOVERY
    {
      assert MayStart(script, i, l);
      DeadlineFixed(script, first, i, l);
    }
  }

  /** Each failure that was not the last left a retry. */
  lemma {:induction false} FewTransients(script: seq<Attempt>, started: nat, l: Limits, i: nat)
    requires Allowed(script, started, l) && i < started
    ensures Transients(script, i, l) <= RETRIES
  {
    if i > 0 {
      FewTransients(script, started, l, i - 1);
      assert GoesOn(script, i - 1, l);
    }
  }

  lemma {:induction false} DeadlineFixed(script: seq<Attempt>, first: nat, n: nat, l: Limits)
    requires first < n <= |script| && FirstTransient(script, first, l)
    ensures Deadline(script, n, l) == Some(script[first].deadlineRead + RECOVERY)
  {
    hide FailedTransiently;
    if n == first + 1 {
      NoDeadline(script, first, l);
    } else {
      DeadlineFixed(script, first, n - 1, l);
    }
  }

  lemma {:induction false} NoDeadline(script: seq<Attempt>, n: nat, l: Limits)
    requires n <= |script| && forall k :: 0 <= k < n ==> !FailedTransiently(script, k, l)
    ensures Deadline(script, n, l) == None
  {
    hide FailedTransiently;
    if n > 0 { NoDeadline(script, n - 1, l); }
  }

  /** Server delays are honoured and the backoff grows to its cap: 5, 10, 20, 40, then 60 seconds plus jitter. */
  lemma RetryDelays(n: nat, retryAfter: real, jitter: real)
    requires 0 < n <= 5 && 0.0 <= jitter
    ensures RetryDelay(n, retryAfter, jitter) >= retryAfter
    ensures RetryDelay(n, 0.0, jitter) == jitter + if n == 1 then 5.0 else if n == 2 then 10.0 else if n == 3 then 20.0 else if n == 4 then 40.0 else 60.0
  {
    assert Power(0) == 1 && Power(1) == 2 && Power(2) == 4 && Power(3) == 8 && Power(4) == 16;
  }

  // ---- the rules, case by case ----

  /** The last phase event among the first n turns announced this phase; publication also where there was none. */
  ghost predicate InPhase(turns: seq<Turn>, n: nat, phase: Phase) {
    && n <= |turns|
    && ((phase == Publication && forall j :: 0 <= j < n ==> !turns[j].line.PhaseEvent?)
        || exists k :: 0 <= k < n && turns[k].line == PhaseEvent(phase) && forall j :: k < j < n ==> !turns[j].line.PhaseEvent?)
  }

  lemma {:induction false} PhaseMeans(turns: seq<Turn>, n: nat, phase: Phase)
    requires n <= |turns|
    ensures PhaseAt(turns, n) == phase <==> InPhase(turns, n, phase)
  {
    if n > 0 {
      PhaseMeans(turns, n - 1, phase);
      if InPhase(turns, n - 1, phase) && !turns[n - 1].line.PhaseEvent? {
        assert InPhase(turns, n, phase);
      }
      if turns[n - 1].line == PhaseEvent(phase) {
        assert InPhase(turns, n, phase);
      }
    }
  }

  /** A phase's time is nothing at the beginning, runs with the clock while that phase lasts and stands still otherwise,
      and reading a line does not change it. */
  lemma SpentMeans(p: Process, phase: Phase, n: nat, t: real, u: real)
    requires n <= |p.turns|
    ensures Spent(p, phase, 0, p.begun) == 0.0
    ensures Spent(p, phase, n, u) == Spent(p, phase, n, t) + if InPhase(p.turns, n, phase) then u - t else 0.0
    ensures n < |p.turns| && p.turns[n].line.PhaseEvent? ==> Spent(p, phase, n + 1, p.turns[n].seen) == Spent(p, phase, n, p.turns[n].seen)
    ensures n < |p.turns| && !p.turns[n].line.PhaseEvent? ==> Spent(p, phase, n + 1, t) == Spent(p, phase, n, t)
  {
    PhaseMeans(p.turns, n, phase);
  }

  /** Turn i ends the loop, and why: the retry budget is looked at before anything is charged, a stop before the budgets,
      and the budgets before the line. */
  ghost predicate Ends(p: Process, publication: real, content: real, retryBudget: Option<real>, i: nat, ended: Ended) {
    && i < |p.turns|
    && var turn := p.turns[i];
       var expired := retryBudget.Some? && turn.now >= p.begun + retryBudget.value;
       var late := InPhase(p.turns, i, Publication) && Spent(p, Publication, i, turn.now) >= publication;
       var slow := InPhase(p.turns, i, Content) && Spent(p, Content, i, turn.now) >= content;
       match ended
       case RetryExpired => expired
       case Stopped => turn.stop && !expired
       case PublicationTimeout => late && !turn.stop && !expired
       case TransferTimeout => slow && !turn.stop && !expired
       case Finished => turn.line.EndOfOutput? && !late && !slow && !turn.stop && !expired
  }

  /** The loop ends at the first turn that ends it, for that turn's reason. */
  lemma ReadsMeans(p: Process, publication: real, content: real, retryBudget: Option<real>)
    ensures var r := Reads(p, publication, content, retryBudget, 0);
      && (forall k, e :: 0 <= k < r.read ==> !Ends(p, publication, content, retryBudget, k, e))
      && (if r.read < |p.turns| then Ends(p, publication, content, retryBudget, r.read, r.ended) else r.ended == Stopped)
  {
    ReadsFrom(p, publication, content, retryBudget, 0);
  }

  lemma {:induction false} ReadsFrom(p: Process, publication: real, content: real, retryBudget: Option<real>, i: nat)
    requires i <= |p.turns|
    ensures var r := Reads(p, publication, content, retryBudget, i);
      && (forall k, e :: i <= k < r.read ==> !Ends(p, publication, content, retryBudget, k, e))
      && (if r.read < |p.turns| then Ends(p, publication, content, retryBudget, r.read, r.ended) else r.ended == Stopped)
    decreases |p.turns| - i
  {
    hide Spent, InPhase, PhaseAt;
    if i < |p.turns| {
      PhaseMeans(p.turns, i, Publication);
      PhaseMeans(p.turns, i, Content);
      if Reads(p, publication, content, retryBudget, i) == Reads(p, publication, content, retryBudget, i + 1) {
        ReadsFrom(p, publication, content, retryBudget, i + 1);
      }
    }
  }

  /** How an attempt's end counts: a process that comes to an orderly end reports its child's failure, if any; the end of
      the publication budget is a version not yet published; the end of the content or the retry budget is a lost
      connection; and an interruption is final. */
  lemma FailureMeans(script: seq<Attempt>, n: nat, l: Limits)
    requires n < |script|
    ensures var ended, failed := RunAt(script, n, l).ended, Failed(script, n, l);
      && (failed == None <==> ended == Finished && script[n].process.child == None)
      && (ended == Finished ==> failed == script[n].process.child)
      && (ended == PublicationTimeout ==> failed == Some(NotPublished))
      && (ended == TransferTimeout || ended == RetryExpired ==> failed == Some(Transport(0.0)))
      && (ended == Stopped ==> failed == Some(Rejected))
  {
    hide RunAt;
  }

  /** The attempt lost its connection, or a server answered that it may be tried again. */
  predicate Lost(script: seq<Attempt>, n: nat, l: Limits)
    requires n < |script|
  {
    var f := Failed(script, n, l);
    f.Some? && (f.value.Transport? || (f.value.Http? && f.value.status in {408, 409, 429, 500, 502, 503, 504}))
  }

  /** The lost ones among the first n attempts. */
  function LostAttempts(script: seq<Attempt>, n: nat, l: Limits): set<int>
    requires n <= |script|
  {
    set i | 0 <= i < n && Lost(script, i, l)
  }

  /** Whether the loop goes on after a failure that is no lost attempt: a version not yet published may take the
      publication grace, a refused one (HTTP 403 or 404) the visibility grace, and any other failure is final. */
  lemma PatienceDecides(script: seq<Attempt>, n: nat, l: Limits)
    requires n < |script| && Failed(script, n, l).Some? && !Lost(script, n, l)
    ensures var f, elapsed := Failed(script, n, l).value, script[n].afterFailure - l.start - ContentTime(script, n + 1, l);
      GoesOn(script, n, l) <==>
        || (f.NotPublished? && elapsed < l.grace)
        || (f.Http? && f.status in {403, 404} && 0.0 < l.visibility && elapsed <= l.visibility)
  {
    hide Failed, ContentTime, RetryDelay, Deadline, Transients;
  }

  /** A lost attempt is followed by another exactly while it is one of the first five, and the delay, which is the
      server's or 5, 10, 20, 40 and then 60 seconds with jitter, ends within 600 seconds of the first lost attempt and
      within the publication grace. */
  lemma RetryDecides(script: seq<Attempt>, n: nat, l: Limits, first: nat)
    requires n < |script| && Lost(script, n, l)
    requires first <= n && Lost(script, first, l) && forall i :: 0 <= i < first ==> !Lost(script, i, l)
    ensures var a, k := script[n], |LostAttempts(script, n + 1, l)|;
      var elapsed := a.afterFailure - l.start - ContentTime(script, n + 1, l);
      var backoff := a.jitter + if k == 1 then 5.0 else if k == 2 then 10.0 else if k == 3 then 20.0 else if k == 4 then 40.0 else 60.0;
      var delay := Max(Failed(script, n, l).value.retryAfter, backoff);
      GoesOn(script, n, l) <==> k <= 5 && a.remainingRead + delay < script[first].deadlineRead + 600.0 && elapsed + delay < l.grace
  {
    hide Failed, ContentTime, Deadline, Transients, FailedTransiently, LostAttempts;
    CountLost(script, n + 1, l);
    LostIsTransient(script, n, l);
    assert FirstTransient(script, first, l) by {
      forall k | 0 <= k <= first ensures FailedTransiently(script, k, l) <==> Lost(script, k, l) { LostIsTransient(script, k, l); }
    }
    DeadlineFixed(script, first, n + 1, l);
    assert Power(0) == 1 && Power(1) == 2 && Power(2) == 4 && Power(3) == 8 && Power(4) == 16;
    assert Transients(script, n + 1, l) > 0 by { AttemptCounts(script, n, l); }
  }

  lemma LostIsTransient(script: seq<Attempt>, n: nat, l: Limits)
    requires n < |script|
    ensures FailedTransiently(script, n, l) <==> Lost(script, n, l)
  {
    hide Failed;
  }

  lemma {:induction false} CountLost(script: seq<Attempt>, n: nat, l: Limits)
    requires n <= |script|
    ensures Transients(script, n, l) == |LostAttempts(script, n, l)|
  {
    hide Failed, LostAttempts, Lost, FailedTransiently;
    if n == 0 {
      NoneLost(script, l);
    } else {
      CountLost(script, n - 1, l);
      LostIsTransient(script, n - 1, l);
      OneMoreLost(script, n, l);
    }
  }

  lemma NoneLost(script: seq<Attempt>, l: Limits)
    ensures LostAttempts(script, 0, l) == {}
  {
  }

  lemma OneMoreLost(script: seq<Attempt>, n: nat, l: Limits)
    requires 0 < n <= |script|
    ensures |LostAttempts(script, n, l)| == |LostAttempts(script, n - 1, l)| + if Lost(script, n - 1, l) then 1 else 0
  {
    hide Failed, Lost;
    var before := LostAttempts(script, n - 1, l);
    assert LostAttempts(script, n, l) == if Lost(script, n - 1, l) then before + {n - 1} else before;
  }
}
