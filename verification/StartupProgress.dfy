/** Startup observations that arrive late, repeated or out of order, and their handoff to training progress. */
module StartupProgress {
  import opened Options
  import opened Database
  import Protocol = JobProtocol

  /** A startup payload as received; None where a field is missing or not of its type. */
  datatype Payload = Payload(
    eventType: string, backend: string, status: string,
    id: Option<string>, stage: Option<string>, message: Option<string>,
    sequence: Option<int>, elapsed: Option<real>, stageElapsed: Option<real>, at: Option<real>, heartbeat: bool)

  datatype Event = Event(
    backend: string, status: string, id: string, stage: string, message: string,
    sequence: nat, elapsed: real, stageElapsed: real, at: real, heartbeat: bool)

  predicate Blank(s: string) {
    forall i :: 0 <= i < |s| ==> s[i] in {' ', '\t', '\n', '\r'}
  }

  predicate Present(s: Option<string>) {
    s.Some? && !Blank(s.value)
  }

  predicate Measured(r: Option<real>) {
    r.Some? && r.value >= 0.0
  }

  function Parse(p: Payload): Option<Event> {
    if p.eventType != "startup" || p.backend !in {"yolo", "patchcore"} then None
    else if p.status !in {"running", "ready", "restarting", "failed"} then None
    else if !Present(p.id) || !Present(p.stage) || !Present(p.message) then None
    else if p.sequence.None? || p.sequence.value < 1 || !Measured(p.elapsed) || !Measured(p.stageElapsed) || !Measured(p.at) then None
    else Some(Event(p.backend, p.status, p.id.value, p.stage.value, p.message.value,
                    p.sequence.value, p.elapsed.value, p.stageElapsed.value, p.at.value, p.heartbeat))
  }

  /** An accepted event as it is stored. */
  function Stored(e: Event): Payload {
    Payload("startup", e.backend, e.status, Some(e.id), Some(e.stage), Some(e.message), Some(e.sequence),
            Some(e.elapsed), Some(e.stageElapsed), Some(e.at), e.heartbeat)
  }

  /** Reading inverts storing: a payload is accepted exactly when it is some well-formed event as stored. */
  lemma ParseInvertsStored(p: Payload, e: Event)
    ensures Parse(p) == Some(e) <==>
              && p == Stored(e)
              && e.backend in {"yolo", "patchcore"} && e.status in {"running", "ready", "restarting", "failed"}
              && !Blank(e.id) && !Blank(e.stage) && !Blank(e.message)
              && e.sequence > 0 && e.elapsed >= 0.0 && e.stageElapsed >= 0.0 && e.at >= 0.0
  {
    hide Blank;
  }

  /** The kernel_status column. */
  datatype Shown =
    | Nothing
    | Startup(payload: Payload)
    | Training(epoch: bool, phase: Option<string>)    // a progress payload; epoch: its epoch is set
    | NotAnObject

  datatype Incoming = StartupIn(payload: Payload) | TrainingIn(epoch: bool, phase: Option<string>)

  predicate Observing(s: Status) {
    s.PushingKernel? || s.WaitingKernel? || s.CancelRequested?
  }

  predicate Ignored(status: Status, shown: Shown, incoming: Incoming) {
    match incoming
    case TrainingIn(_, _) => false
    case StartupIn(p) =>
      var event := Parse(p);
      if event.None? || !Observing(status) then true
      else
        match shown
        case Nothing => false
        case NotAnObject => false
        case Startup(q) =>
          var previous := Parse(q);
          if previous.None? then false
          else if previous.value.id == event.value.id then event.value.sequence <= previous.value.sequence
          else event.value.at <= previous.value.at
        case Training(epoch, phase) => epoch || (phase.Some? && phase.value != "" && phase.value !in {"prepare", "input"})
  }

  function Show(incoming: Incoming): Shown {
    match incoming
    case StartupIn(p) => Startup(p)
    case TrainingIn(epoch, phase) => Training(epoch, phase)
  }

  function Receive(status: Status, shown: Shown, incoming: Incoming): Shown {
    if Ignored(status, shown, incoming) then shown else Show(incoming)
  }

  // ---- the compare-and-set loop of the callback ----

  datatype Cell = Cell(status: Status, shown: Shown)
  datatype Result = Written(row: Cell) | Skipped | GaveUp

  const ATTEMPTS := 5

  /** At attempt i the callback reads seen[i]; when it writes, the row is rows[i].  A write happens on exactly the
      row it was decided on, so the callback takes effect in one step or not at all. */
  method ApplyCallback(seen: seq<Cell>, rows: seq<Cell>, canceled: seq<bool>, incoming: Incoming) returns (r: Result)
    requires |seen| == |rows| == |canceled| == ATTEMPTS
    ensures r.Written? ==> exists i :: 0 <= i < ATTEMPTS && rows[i] == seen[i] && Writes(rows[i], canceled[i], incoming, r.row)
    ensures r.Skipped? ==> exists i :: 0 <= i < ATTEMPTS && Ignored(seen[i].status, seen[i].shown, incoming)
    ensures r.GaveUp? ==> forall i :: 0 <= i < ATTEMPTS ==> rows[i] != seen[i]
  {
    for attempt := 0 to ATTEMPTS
      invariant forall i :: 0 <= i < attempt ==> rows[i] != seen[i]
    {
      var current := seen[attempt];
      if Ignored(current.status, current.shown, incoming) {
        return Skipped;
      }
      if rows[attempt].status == current.status && rows[attempt].shown == current.shown {
        var status := current.status;
        if !Terminal(status) {
          status := if canceled[attempt] then CancelRequested else WaitingKernel;
        }
        return Written(Cell(status, Show(incoming)));
      }
    }
    return GaveUp;
  }

  /** The atomic effect of one accepted callback. */
  predicate Writes(row: Cell, canceled: bool, incoming: Incoming, after: Cell) {
    && !Ignored(row.status, row.shown, incoming)
    && after.shown == Show(incoming)
    && (Terminal(row.status) ==> after.status == row.status)
    && (!Terminal(row.status) && canceled ==> after.status == CancelRequested)
    && (!Terminal(row.status) && !canceled ==> after.status == WaitingKernel)
  }

  /** What a callback writes, decided on the job's own row, is a step of the job protocol with that status; and whatever
      status the protocol gives to an open job in it, the flag read with the row decides it. */
  lemma WritesAreCallbacks(s: Protocol.JobState, shown: Shown, incoming: Incoming, after: Cell, p: int)
    requires Writes(Cell(s.row.status, shown), s.row.cancelRequested, incoming, after)
    requires s.row.dynamic ==> !s.row.pending && s.row.status !in {Receiving, Assembling}
    requires p == s.row.progress || s.row.progress <= p <= 80
    ensures Protocol.ServerEnabled(s, Protocol.Callback(after.status, p))
    ensures Protocol.ServerStep(s, Protocol.Callback(after.status, p)) == s.(row := s.row.(status := after.status, progress := p))
    ensures forall target :: s.row.status != WaitingDataset && Protocol.ServerEnabled(s, Protocol.Callback(target, p)) ==> target == after.status
  {
    hide Ignored, Protocol.ServerStep, Protocol.ServerEnabled;
    CallbackPossible(s, after.status, p);
    CallbackStep(s, after.status, p);
    forall target | s.row.status != WaitingDataset && Protocol.ServerEnabled(s, Protocol.Callback(target, p)) ensures target == after.status {
      CallbackTargets(s, target, p);
    }
  }

  lemma CallbackPossible(s: Protocol.JobState, target: Status, p: int)
    requires target == if Terminal(s.row.status) then s.row.status else if s.row.cancelRequested then CancelRequested else WaitingKernel
    requires s.row.dynamic ==> !s.row.pending && s.row.status !in {Receiving, Assembling}
    requires p == s.row.progress || s.row.progress <= p <= 80
    ensures Protocol.ServerEnabled(s, Protocol.Callback(target, p))
  {
  }

  lemma CallbackStep(s: Protocol.JobState, target: Status, p: int)
    requires Protocol.ServerEnabled(s, Protocol.Callback(target, p))
    ensures Protocol.ServerStep(s, Protocol.Callback(target, p)) == s.(row := s.row.(status := target, progress := p))
  {
    hide Protocol.ServerEnabled;
  }

  lemma CallbackTargets(s: Protocol.JobState, target: Status, p: int)
    requires s.row.status != WaitingDataset && Protocol.ServerEnabled(s, Protocol.Callback(target, p))
    ensures target == if Terminal(s.row.status) then s.row.status else if s.row.cancelRequested then CancelRequested else WaitingKernel
  {
  }

  // ---- convergence ----

  predicate Valid(p: Payload) {
    Parse(p).Some?
  }

  predicate InStep(a: Event, b: Event) {
    a.sequence != b.sequence && (a.sequence < b.sequence <==> a.at < b.at)
  }

  /** Timestamps are distinct, and inside one startup id they increase with the sequence. */
  predicate Consistent(ps: set<Payload>) {
    && (forall p :: p in ps ==> Valid(p))
    && (forall p, q :: p in ps && q in ps && p != q ==> p.at != q.at)
    && (forall p, q :: p in ps && q in ps && p.id == q.id && p != q ==> InStep(Parse(p).value, Parse(q).value))
  }

  function Deliver(status: Status, shown: Shown, ps: seq<Payload>): Shown {
    if ps == [] then shown else Receive(status, Deliver(status, shown, ps[..|ps| - 1]), StartupIn(ps[|ps| - 1]))
  }

  predicate Newest(p: Payload, ps: seq<Payload>) {
    p in ps && Valid(p) && forall q :: q in ps && Valid(q) ==> Parse(q).value.at <= Parse(p).value.at
  }

  /** The newer of two consistent observations wins, whichever arrives first. */
  lemma NewerWins(status: Status, ps: set<Payload>, p: Payload, q: Payload)
    requires Observing(status) && Consistent(ps) && p in ps && q in ps
    ensures Receive(status, Startup(p), StartupIn(q)) == Startup(if Parse(p).value.at < Parse(q).value.at then q else p)
  {
    hide Blank;
    assert Valid(p) && Valid(q);
    if p != q { assert p.at != q.at; }
  }

  /** Any delivery order with any repetitions of consistent startup observations, from an empty or preparing display,
      ends at the newest of them. */
  lemma {:induction false} ConvergesToNewest(status: Status, shown: Shown, all: set<Payload>, ps: seq<Payload>)
    requires Observing(status) && Consistent(all) && ps != [] && forall i :: 0 <= i < |ps| ==> ps[i] in all
    requires shown.Nothing? || (shown.Training? && !HandedOver(shown))
    ensures Deliver(status, shown, ps).Startup? && Newest(Deliver(status, shown, ps).payload, ps)
  {
    hide Parse, Consistent, Receive;
    var n := |ps| - 1;
    var last := ps[n];
    assert last in all;
    assert Valid(last) by { ValidIn(all, last); }
    if n == 0 {
      assert ps[..0] == [] && Deliver(status, shown, ps[..0]) == shown;
      assert ps == [last];
      FirstShown(status, shown, last);
    } else {
      ConvergesToNewest(status, shown, all, ps[..n]);
      var before := Deliver(status, shown, ps[..n]).payload;
      assert before in ps[..n];
      var k :| 0 <= k < n && ps[k] == before;
      NewerWins(status, all, before, last);
      forall q | q in ps && Valid(q) ensures Parse(q).value.at <= Parse(Deliver(status, shown, ps).payload).value.at {
        assert q in ps[..n] || q == last;
      }
      assert ps[n] in ps && ps[k] in ps;
    }
  }

  lemma FirstShown(status: Status, shown: Shown, p: Payload)
    requires Observing(status) && Valid(p)
    requires shown.Nothing? || (shown.Training? && !HandedOver(shown))
    ensures Receive(status, shown, StartupIn(p)) == Startup(p)
  {
    hide Parse;
  }

  lemma ValidIn(all: set<Payload>, p: Payload)
    requires Consistent(all) && p in all
    ensures Valid(p)
  {
    hide Blank;
  }

  /** So two deliveries of the same observations end the same, whatever their order and repetitions. */
  lemma OrderDoesNotMatter(status: Status, shown: Shown, ps: seq<Payload>, qs: seq<Payload>)
    requires Observing(status) && shown.Nothing? && ps != [] && qs != [] && (set p | p in ps) == (set q | q in qs)
    requires Consistent(set p | p in ps)
    ensures Deliver(status, shown, ps) == Deliver(status, shown, qs)
  {
    hide Blank;
    var all := set p | p in ps;
    ConvergesToNewest(status, shown, all, ps);
    forall i | 0 <= i < |qs| ensures qs[i] in all { assert qs[i] in (set q | q in qs); }
    ConvergesToNewest(status, shown, all, qs);
    var p, q := Deliver(status, shown, ps).payload, Deliver(status, shown, qs).payload;
    assert p in (set x | x in qs) && q in all;
    SameInstant(all, p, q);
  }

  lemma SameInstant(all: set<Payload>, p: Payload, q: Payload)
    requires Consistent(all) && p in all && q in all && p.at == q.at
    ensures p == q
  {
    hide Valid, InStep;
  }

  /** Every delivery from these observations ends at its newest. */
  ghost predicate AllConverge(status: Status, all: set<Payload>) {
    forall ps: seq<Payload> :: ps != [] && (forall i :: 0 <= i < |ps| ==> ps[i] in all) ==>
      Deliver(status, Nothing, ps).Startup? && Newest(Deliver(status, Nothing, ps).payload, ps)
  }

  /** The condition is exact: readable observations with distinct timestamps end at the newest, however they are
      delivered, if and only if inside each id the timestamps grow with the sequence. */
  lemma ConvergesExactly(status: Status, all: set<Payload>)
    requires Observing(status) && (forall p :: p in all ==> Valid(p)) && (forall p, q :: p in all && q in all && p != q ==> p.at != q.at)
    ensures AllConverge(status, all) <==> Consistent(all)
  {
    hide Parse, Deliver, Newest, InStep;
    if Consistent(all) {
      forall ps: seq<Payload> | ps != [] && forall i :: 0 <= i < |ps| ==> ps[i] in all
        ensures Deliver(status, Nothing, ps).Startup? && Newest(Deliver(status, Nothing, ps).payload, ps)
      {
        ConvergesToNewest(status, Nothing, all, ps);
      }
    }
    if AllConverge(status, all) {
      forall p, q | p in all && q in all && p.id == q.id && p != q ensures InStep(Parse(p).value, Parse(q).value) {
        PairsOrdered(status, p, q);
        assert [p, q][0] in all && [p, q][1] in all && [q, p][0] in all && [q, p][1] in all;
      }
    }
  }

  /** Two observations of one id that end at the newer one in both orders are in step. */
  lemma PairsOrdered(status: Status, p: Payload, q: Payload)
    requires Observing(status) && Valid(p) && Valid(q) && p.id == q.id && p.at != q.at
    ensures Deliver(status, Nothing, [p, q]).Startup? && Deliver(status, Nothing, [q, p]).Startup?
    ensures Newest(Deliver(status, Nothing, [p, q]).payload, [p, q]) && Newest(Deliver(status, Nothing, [q, p]).payload, [q, p]) ==>
              InStep(Parse(p).value, Parse(q).value)
  {
    hide Blank;
    Two(status, p, q);
    Two(status, q, p);
    assert p in [p, q] && q in [p, q] && p in [q, p] && q in [q, p];
    assert Parse(p).value.id == Parse(q).value.id && Parse(p).value.at != Parse(q).value.at;
  }

  lemma Two(status: Status, p: Payload, q: Payload)
    ensures Deliver(status, Nothing, [p, q]) == Receive(status, Receive(status, Nothing, StartupIn(p)), StartupIn(q))
  {
    hide Receive;
    assert [p, q][..1] == [p] && [p][..0] == [];
    assert Deliver(status, Nothing, [p]) == Receive(status, Nothing, StartupIn(p));
  }

  /** The display was handed over to training: an epoch is shown, or a phase past the preparation. */
  predicate HandedOver(shown: Shown) {
    shown.Training? && (shown.epoch || (shown.phase != None && shown.phase !in {Some(""), Some("prepare"), Some("input")}))
  }

  /** After the handoff no startup observation replaces the display, nor any once the job left the observing statuses. */
  lemma {:induction false} HandoffIsFinal(status: Status, shown: Shown, ps: seq<Payload>)
    requires HandedOver(shown) || !Observing(status)
    ensures Deliver(status, shown, ps) == shown
  {
    hide Parse;
    if ps != [] { HandoffIsFinal(status, shown, ps[..|ps| - 1]); }
  }

  /** Nothing delivered changes the display. */
  ghost predicate Final(status: Status, shown: Shown) {
    forall ps: seq<Payload> :: Deliver(status, shown, ps) == shown
  }

  /** And only then: any other display of an observed job is replaced by some later observation. */
  lemma HandoffExactly(status: Status, shown: Shown)
    ensures Final(status, shown) <==> HandedOver(shown) || !Observing(status)
  {
    hide Receive, Parse, HandedOver, Observing;
    if HandedOver(shown) || !Observing(status) {
      forall ps: seq<Payload> ensures Deliver(status, shown, ps) == shown { HandoffIsFinal(status, shown, ps); }
    } else {
      LaterShown(status, shown);
      DeliverOne(status, shown, Later(shown));
    }
  }

  lemma DeliverOne(status: Status, shown: Shown, p: Payload)
    ensures Deliver(status, shown, [p]) == Receive(status, shown, StartupIn(p))
  {
    hide Receive;
    assert [p][..0] == [];
  }

  /** An observation that is newer than what is shown. */
  function Later(shown: Shown): Payload {
    if shown.Startup? && Parse(shown.payload).Some? then
      Sample("s", Parse(shown.payload).value.sequence + 1, Parse(shown.payload).value.at + 1.0)
    else Sample("s", 1, 0.0)
  }

  lemma LaterShown(status: Status, shown: Shown)
    requires Observing(status) && !HandedOver(shown)
    ensures Receive(status, shown, StartupIn(Later(shown))) == Startup(Later(shown)) != shown
  {
    assert !Blank("s") by { assert "s"[0] == 's'; }
    assert !Blank("m") by { assert "m"[0] == 'm'; }
    hide Blank;
    assert Parse(Later(shown)).Some?;
  }

  function Sample(id: string, sequence: nat, at: real): Payload {
    Payload("startup", "yolo", "running", Some(id), Some("s"), Some("m"), Some(sequence), Some(0.0), Some(0.0), Some(at), false)
  }

  /** The condition on timestamps is needed: if inside one id a later sequence carries an older timestamp, the end depends
      on the order of arrival. */
  lemma InconsistentTimesDiverge(a: string, b: string, early: real, middle: real, late: real)
    requires !Blank(a) && !Blank(b) && a != b && 0.0 <= early < middle < late
    ensures var x, y, z := Sample(a, 1, late), Sample(a, 2, early), Sample(b, 1, middle);
      && Deliver(WaitingKernel, Nothing, [x, y, z]) == Startup(z)
      && Deliver(WaitingKernel, Nothing, [z, x, y]) == Startup(y)
  {
    var x, y, z := Sample(a, 1, late), Sample(a, 2, early), Sample(b, 1, middle);
    assert !Blank("s") by { assert "s"[0] == 's'; }
    assert !Blank("m") by { assert "m"[0] == 'm'; }
    hide Blank;
    assert Parse(x).Some? && Parse(y).Some? && Parse(z).Some?;
    assert [x, y, z][..2] == [x, y] && [x, y][..1] == [x] && [x][..0] == [];
    assert [z, x, y][..2] == [z, x] && [z, x][..1] == [z] && [z][..0] == [];
    Three(x, y, z);
    Three(z, x, y);
  }

  lemma Three(p: Payload, q: Payload, r: Payload)
    ensures Deliver(WaitingKernel, Nothing, [p, q, r]) ==
              Receive(WaitingKernel, Receive(WaitingKernel, Receive(WaitingKernel, Nothing, StartupIn(p)), StartupIn(q)), StartupIn(r))
  {
    hide Receive;
    assert [p, q, r][..2] == [p, q] && [p, q][..1] == [p] && [p][..0] == [];
    assert Deliver(WaitingKernel, Nothing, [p]) == Receive(WaitingKernel, Nothing, StartupIn(p));
    assert Deliver(WaitingKernel, Nothing, [p, q]) == Receive(WaitingKernel, Deliver(WaitingKernel, Nothing, [p]), StartupIn(q));
  }
}
