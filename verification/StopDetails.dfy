/** Why a training stopped: classifying a log, and merging late evidence into what is already recorded. */
module StopDetails {
  import opened Options
  import Database

  datatype Field = Epoch | Epochs | BestEpoch | Patience | ElapsedSeconds
  type Numbers = map<Field, real>

  datatype Reason =
    | EarlyStopping | EpochsCompleted | TimeBudget | Unknown
    | TrainingStopped | MonitoringTimeout | StatusUnavailable
    | CompletedUnknown | ProviderFailed | UserCanceled | ProviderCanceled

  datatype Source = Runtime | Logs | Provider | Relay
  datatype Confidence = Confirmed | Inferred | Unsure
  datatype Message = Retained | Text(id: nat)

  /** A stored or incoming record; training is its training_reason, if present and not empty. */
  datatype Details = Details(
    reason: Option<Reason>, training: Option<Reason>, source: Option<Source>, confidence: Option<Confidence>,
    message: Option<Message>, numbers: Numbers)

  predicate Named(r: Option<Reason>) {
    r.Some? && (r.value.EarlyStopping? || r.value.EpochsCompleted? || r.value.TimeBudget?)
  }

  /** training_reason or reason */
  function Evidence(d: Details): Option<Reason> {
    if d.training.Some? then d.training else d.reason
  }

  predicate Records(d: Details) {
    Named(Evidence(d))
  }

  /** setdefault for every number of `more` */
  function Filled(numbers: Numbers, more: Numbers): Numbers {
    more + numbers
  }

  /** An outcome that late runtime evidence may not replace. */
  predicate Settled(d: Details) {
    !(d.reason.Some? && (d.reason.value.TrainingStopped? || d.reason.value.Unknown? || d.reason.value.MonitoringTimeout? || d.reason.value.StatusUnavailable?))
  }

  predicate Enriches(previous: Option<Details>, incoming: Details) {
    incoming.reason == Some(TrainingStopped) && previous.Some? && Settled(previous.value)
  }

  /** Late runtime evidence only adds to a settled outcome. */
  function Enriched(previous: Details, incoming: Details): Details {
    if Named(incoming.training) then
      previous.(training := if previous.training.Some? then previous.training else incoming.training,
                numbers := Filled(previous.numbers, incoming.numbers))
    else previous
  }

  predicate Upgrades(previous: Details, d: Details) {
    d.reason == Some(CompletedUnknown) && previous.confidence == Some(Confirmed) && (previous.source == Some(Runtime) || previous.source == Some(Logs))
  }

  /** The previous training reason is carried into a record that names none. */
  function CarriedOver(previous: Details, d: Details): Details {
    var kept := d.(training := Evidence(previous), numbers := Filled(d.numbers, previous.numbers));
    if Upgrades(previous, d) then
      kept.(reason := Evidence(previous), source := previous.source, confidence := Some(Confirmed), message := Some(Retained))
    else kept
  }

  function Merge(previous: Option<Details>, incoming: Details): Details {
    var d := if Enriches(previous, incoming) then Enriched(previous.value, incoming) else incoming;
    if previous.None? || !Records(previous.value) then d
    else
      var p := previous.value;
      var filled := if Evidence(d) == Evidence(p) then d.(numbers := Filled(d.numbers, p.numbers)) else d;
      if d.training.None? && !Named(d.reason) then CarriedOver(p, filled) else filled
  }

  /** record_stop_details edits the incoming record step by step before it writes it. */
  method MergeSteps(previous: Option<Details>, incoming: Details) returns (details: Details)
    ensures details == Merge(previous, incoming)
  {
    details := incoming;
    if incoming.reason == Some(TrainingStopped) && previous.Some? && Settled(previous.value) {
      details := previous.value;
      if Named(incoming.training) {
        if details.training.None? {
          details := details.(training := incoming.training);
        }
        details := details.(numbers := Filled(details.numbers, incoming.numbers));
      }
    }
    if previous.None? {
      return;
    }
    var training := Evidence(previous.value);
    if !Named(training) {
      return;
    }
    if Evidence(details) == training {
      details := details.(numbers := Filled(details.numbers, previous.value.numbers));
    }
    if details.training.None? && !Named(details.reason) {
      details := details.(training := training);
      details := details.(numbers := Filled(details.numbers, previous.value.numbers));
      if details.reason == Some(CompletedUnknown) && previous.value.confidence == Some(Confirmed)
         && (previous.value.source == Some(Runtime) || previous.value.source == Some(Logs)) {
        details := details.(reason := training, source := previous.value.source, confidence := Some(Confirmed), message := Some(Retained));
      }
    }
  }

  /** The columns of a job that record_stop_details reads and writes. */
  datatype StopRow = StopRow(status: Database.Status, details: Option<Details>)

  class StopTable {
    var rows: map<Database.JobId, StopRow>

    constructor ()
      ensures rows == map[]
    {
      rows := map[];
    }

    /** One transaction; returns whether it wrote the row and logged.  The status is compared by the write itself. */
    method RecordStopDetails(job: Database.JobId, incoming: Details, expected: Option<set<Database.Status>>) returns (logged: bool)
      modifies this
      ensures logged <==> && job in old(rows) && old(rows)[job].details != Some(Merge(old(rows)[job].details, incoming))
                          && (expected.Some? ==> old(rows)[job].status in expected.value)
      ensures rows == if logged then old(rows)[job := old(rows)[job].(details := Some(Merge(old(rows)[job].details, incoming)))] else old(rows)
    {
      hide Merge;
      if job !in rows {
        return false;
      }
      var row := rows[job];
      var details := MergeSteps(row.details, incoming);
      if row.details == Some(details) {
        return false;
      }
      if expected.Some? && row.status !in expected.value {
        return false;
      }
      rows := rows[job := row.(details := Some(details))];
      return true;
    }
  }

  // ---- what a merge shows, and that nothing recorded is lost ----

  predicate SameOutcome(a: Details, b: Details) {
    a.reason == b.reason && a.source == b.source && a.confidence == b.confidence && a.message == b.message
  }

  /** Late runtime evidence never changes a settled outcome: it only adds one of the three reasons where none was
      recorded, and numbers that were missing. */
  lemma LateEvidenceOnlyAdds(previous: Details, incoming: Details)
    requires incoming.reason == Some(TrainingStopped)
    requires previous.reason !in {Some(TrainingStopped), Some(Unknown), Some(MonitoringTimeout), Some(StatusUnavailable)}
    ensures var m := Merge(Some(previous), incoming);
      && SameOutcome(m, previous)
      && (previous.training.Some? ==> m.training == previous.training)
      && (previous.training.None? ==> m.training == if Named(incoming.training) then incoming.training else None)
      && (forall f :: f in m.numbers <==> f in previous.numbers || (f in incoming.numbers && Named(incoming.training)))
      && (forall f :: f in m.numbers ==> m.numbers[f] == if f in previous.numbers then previous.numbers[f] else incoming.numbers[f])
  {
  }

  /** Any other record replaces the outcome, except an unexplained completion that follows a reason confirmed by the
      runtime or the logs: there the reason is retained.  A named recorded reason is carried into a record that names
      none, and the recorded numbers fill the gaps of every record with the same training reason. */
  lemma OtherEvidenceReplaces(previous: Details, incoming: Details)
    requires incoming.reason != Some(TrainingStopped) || previous.reason in {Some(TrainingStopped), Some(Unknown), Some(MonitoringTimeout), Some(StatusUnavailable)}
    ensures var m, recorded := Merge(Some(previous), incoming), if previous.training.Some? then previous.training else previous.reason;
      var unnamed := incoming.training.None? && !Named(incoming.reason);
      var retained := Named(recorded) && unnamed && incoming.reason == Some(CompletedUnknown) && previous.confidence == Some(Confirmed) && previous.source in {Some(Runtime), Some(Logs)};
      var filled := Named(recorded) && (unnamed || recorded == if incoming.training.Some? then incoming.training else incoming.reason);
      && (!retained ==> SameOutcome(m, incoming))
      && (retained ==> m.reason == recorded && m.source == previous.source && m.confidence == Some(Confirmed) && m.message == Some(Retained))
      && m.training == (if Named(recorded) && unnamed then recorded else incoming.training)
      && (forall f :: f in m.numbers <==> f in incoming.numbers || (f in previous.numbers && filled))
      && (forall f :: f in m.numbers ==> m.numbers[f] == if f in incoming.numbers then incoming.numbers[f] else previous.numbers[f])
  {
  }

  /** The first record is stored as it came. */
  lemma FirstRecordStored(incoming: Details)
    ensures Merge(None, incoming) == incoming
  {
  }

  /** The merge loses a recorded training reason in exactly one case: the incoming record is not mere late evidence for a
      settled outcome, and it carries a training reason of its own that is none of the three.  Whatever is kept is the
      recorded reason or one the incoming record names. */
  lemma LosesExactly(previous: Details, incoming: Details)
    requires Records(previous)
    ensures !Records(Merge(Some(previous), incoming)) <==>
              !Enriches(Some(previous), incoming) && incoming.training.Some? && !Named(incoming.training)
    ensures Records(Merge(Some(previous), incoming)) ==>
              Evidence(Merge(Some(previous), incoming)) == Evidence(previous) || Evidence(Merge(Some(previous), incoming)) == Evidence(incoming)
  {
  }

  /** In particular nothing is lost when the incoming training reason is absent or one of the three. */
  lemma KeepsRecordedReason(previous: Details, incoming: Details)
    requires Records(previous) && (incoming.training.None? || Named(incoming.training))
    ensures Records(Merge(Some(previous), incoming))
    ensures incoming.training.None? && !Named(incoming.reason) ==> Evidence(Merge(Some(previous), incoming)) == Evidence(previous)
  {
    LosesExactly(previous, incoming);
  }

  /** A log whose marker names no reason erases what was recorded. */
  lemma UnknownMarkerErases(numbers: Numbers, message: Message)
    ensures var previous := Details(Some(TrainingStopped), Some(EarlyStopping), Some(Runtime), Some(Confirmed), Some(message), numbers);
      var incoming := Details(Some(ProviderFailed), Some(Unknown), Some(Provider), Some(Confirmed), Some(message), map[]);
      Records(previous) && !Records(Merge(Some(previous), incoming))
  {
  }

  /** Numbers already recorded with the same training reason survive, unless the incoming record has its own. */
  lemma KeepsNumbers(previous: Details, incoming: Details, f: Field)
    requires Records(previous) && f in previous.numbers && (incoming.training.None? || incoming.training == Evidence(previous))
    requires Named(incoming.reason) && incoming.training.None? ==> incoming.reason == Evidence(previous)
    ensures f in Merge(Some(previous), incoming).numbers
    ensures Enriches(Some(previous), incoming) || f !in incoming.numbers ==> Merge(Some(previous), incoming).numbers[f] == previous.numbers[f]
  {
  }

  // ---- merging twice ----

  /** A completed_unknown record that claims a confirmed runtime or log source could be upgraded by its own repetition. */
  predicate SelfConfirming(d: Details) {
    d.reason == Some(CompletedUnknown) && d.training.None? && d.confidence == Some(Confirmed) && (d.source == Some(Runtime) || d.source == Some(Logs))
  }

  predicate CarriesOnly(previous: Option<Details>, incoming: Details) {
    previous.Some? && Records(previous.value) && !Upgrades(previous.value, incoming)
  }

  /** Merging the same record twice is merging it once, exactly unless a self-confirming record meets a recorded reason
      that does not confirm it. */
  lemma MergeTwice(previous: Option<Details>, incoming: Details)
    ensures Merge(Some(Merge(previous, incoming)), incoming) == Merge(previous, incoming) <==>
              !(SelfConfirming(incoming) && CarriesOnly(previous, incoming))
  {
    hide Filled;
    var once := Merge(previous, incoming);
    FilledTwice(incoming.numbers, incoming.numbers);
    FilledTwice(once.numbers, once.numbers);
    FilledTwice(once.numbers, incoming.numbers);
    if previous.Some? {
      var p := previous.value;
      FilledTwice(incoming.numbers, p.numbers);
      FilledTwice(p.numbers, incoming.numbers);
      FilledMore(p.numbers, incoming.numbers);
      FilledMore(incoming.numbers, p.numbers);
    }
  }

  lemma FilledTwice(a: Numbers, b: Numbers)
    ensures Filled(Filled(a, b), b) == Filled(a, b)
    ensures Filled(a, Filled(a, b)) == Filled(a, b)
    ensures Filled(a, a) == a
  {
  }

  lemma FilledMore(a: Numbers, b: Numbers)
    ensures Filled(Filled(a, b), a) == Filled(a, b)
    ensures Filled(Filled(a, b), Filled(a, b)) == Filled(a, b)
  {
  }

  // ---- the classifier ----

  /** A log line, as far as it is recognized; numbers are the raw values found in it. */
  datatype Line =
    | Marker(reason: Option<Reason>, vouched: bool, raw: Numbers)   // TRAINING_PLATFORM_STOP; vouched: source and confidence are right
    | Progress(raw: Numbers)                                         // TRAINING_PLATFORM_PROGRESS
    | EarlyStop(raw: Numbers)
    | Summary(raw: Numbers)                                          // "N epochs completed in H hours"
    | FinalProgress(raw: Numbers)                                    // a full progress bar, N/N
    | Noise

  predicate InRange(f: Field, v: real) {
    if f.ElapsedSeconds? then 0.0 <= v <= 1000000000000.0
    else v.Floor as real == v && (if f.Patience? then 0.0 else 1.0) <= v <= 1000000000.0
  }

  function Get(n: Numbers, f: Field, default: real): real {
    if f in n then n[f] else default
  }

  predicate Plausible(n: Numbers, overrun: bool) {
    && (forall f :: f in n ==> InRange(f, n[f]))
    && (!overrun ==> Get(n, Epoch, 0.0) <= Get(n, Epochs, 1000000000.0))
    && Get(n, BestEpoch, 0.0) <= Get(n, Epoch, Get(n, Epochs, 1000000000.0))
  }

  datatype Finding = Finding(reason: Reason, source: Source, confidence: Confidence, numbers: Numbers)

  predicate Stated(r: Option<Reason>) {
    Named(r) || r == Some(Unknown)
  }

  function MarkerOf(line: Line): Option<Finding> {
    if line.Marker? && line.vouched && Stated(line.reason) && Plausible(line.raw, line.reason == Some(TimeBudget))
       && (line.reason != Some(EpochsCompleted) || (Epoch in line.raw && Epochs in line.raw && line.raw[Epochs] == line.raw[Epoch]))
    then Some(Finding(line.reason.value, Runtime, Confirmed, line.raw)) else None
  }

  function EarlyOf(line: Line): Option<Finding> {
    if line.EarlyStop? && Plausible(line.raw, false) then Some(Finding(EarlyStopping, Logs, Confirmed, line.raw)) else None
  }

  predicate Counts(line: Line) {
    line.Progress? && Plausible(line.raw, false) && Epoch in line.raw && Epochs in line.raw
  }

  function CompletedOf(line: Line, complete: bool): Option<Finding> {
    if complete && Counts(line) && line.raw[Epoch] == line.raw[Epochs] then Some(Finding(EpochsCompleted, Logs, Inferred, line.raw))
    else if complete && line.FinalProgress? && Plausible(line.raw, false) then Some(Finding(EpochsCompleted, Logs, Inferred, line.raw))
    else None
  }

  /** The last finding of its kind in the log. */
  function Latest(lines: seq<Line>, kind: Line -> Option<Finding>): Option<Finding> {
    if lines == [] then None
    else if kind(lines[|lines| - 1]).Some? then kind(lines[|lines| - 1])
    else Latest(lines[..|lines| - 1], kind)
  }

  function First(a: Option<Finding>, b: Option<Finding>): Option<Finding> {
    if a.Some? then a else b
  }

  /** A runtime marker outranks an early-stopping line, which outranks an inferred completion; within a kind the
      last line counts. */
  function BestEvidence(lines: seq<Line>, complete: bool): Option<Finding> {
    First(Latest(lines, MarkerOf), First(Latest(lines, EarlyOf), Latest(lines, (l: Line) => CompletedOf(l, complete))))
  }

  /** Numbers seen on the way: a progress line replaces them, a summary or a marker without a final epoch adds to them. */
  function ProgressAfter(p: Numbers, line: Line, complete: bool): Numbers {
    match line
    case Marker(reason, vouched, raw) =>
      if vouched && Stated(reason) && Plausible(raw, reason == Some(TimeBudget)) && MarkerOf(line).None? then p + raw else p
    case Progress(raw) => if Counts(line) then raw else p
    case Summary(raw) => if complete && Plausible(raw, false) then p + raw else p
    case _ => p
  }

  function ProgressOf(lines: seq<Line>, complete: bool): Numbers {
    if lines == [] then map[] else ProgressAfter(ProgressOf(lines[..|lines| - 1], complete), lines[|lines| - 1], complete)
  }

  // ---- what the log's lines say, line by line ----

  /** A marker of the runtime that counts as a finding. */
  predicate TellsReason(line: Line) {
    && line.Marker? && line.vouched
    && line.reason in {Some(EarlyStopping), Some(EpochsCompleted), Some(TimeBudget), Some(Unknown)}
    && Plausible(line.raw, line.reason == Some(TimeBudget))
    && (line.reason == Some(EpochsCompleted) ==> Epoch in line.raw && Epochs in line.raw && line.raw[Epoch] == line.raw[Epochs])
  }

  predicate TellsEarlyStop(line: Line) {
    line.EarlyStop? && Plausible(line.raw, false)
  }

  /** A line that shows the last epoch. */
  predicate TellsCompletion(line: Line) {
    && (line.FinalProgress? || (line.Progress? && Epoch in line.raw && Epochs in line.raw && line.raw[Epoch] == line.raw[Epochs]))
    && Plausible(line.raw, false)
  }

  /** Line i satisfies tells and no later line does. */
  ghost predicate Final(lines: seq<Line>, tells: Line -> bool, i: int) {
    0 <= i < |lines| && tells(lines[i]) && forall j :: i < j < |lines| ==> !tells(lines[j])
  }

  ghost predicate Absent(lines: seq<Line>, tells: Line -> bool) {
    forall j :: 0 <= j < |lines| ==> !tells(lines[j])
  }

  /** The finding is the last runtime marker's; without a marker it is an early stopping confirmed by the log, with the
      last such line's numbers; without either it is, once the provider reports completion, an inferred end of the
      epochs; and otherwise there is none. */
  lemma EvidenceMeans(lines: seq<Line>, complete: bool)
    ensures var found := BestEvidence(lines, complete);
      && (forall i :: Final(lines, TellsReason, i) ==> found == Some(Finding(lines[i].reason.value, Runtime, Confirmed, lines[i].raw)))
      && (Absent(lines, TellsReason) ==>
            forall i :: Final(lines, TellsEarlyStop, i) ==> found == Some(Finding(EarlyStopping, Logs, Confirmed, lines[i].raw)))
      && (Absent(lines, TellsReason) && Absent(lines, TellsEarlyStop) && complete ==>
            forall i :: Final(lines, TellsCompletion, i) ==> found == Some(Finding(EpochsCompleted, Logs, Inferred, lines[i].raw)))
      && (Absent(lines, TellsReason) && Absent(lines, TellsEarlyStop) && (!complete || Absent(lines, TellsCompletion)) ==> found == None)
  {
    hide Plausible;
    var completed := (l: Line) => CompletedOf(l, complete);
    LatestIs(lines, MarkerOf, TellsReason);
    LatestIs(lines, EarlyOf, TellsEarlyStop);
    if complete {
      LatestIs(lines, completed, TellsCompletion);
    } else {
      LatestIs(lines, completed, (l: Line) => false);
      assert Absent(lines, (l: Line) => false);
    }
    SameKind(lines, completed, (l: Line) => CompletedOf(l, complete));
  }

  lemma {:induction false} LatestIs(lines: seq<Line>, kind: Line -> Option<Finding>, tells: Line -> bool)
    requires forall l :: kind(l).Some? <==> tells(l)
    ensures forall i :: Final(lines, tells, i) ==> Latest(lines, kind) == kind(lines[i])
    ensures Absent(lines, tells) ==> Latest(lines, kind) == None
  {
    if lines != [] {
      var n := |lines| - 1;
      LatestIs(lines[..n], kind, tells);
      forall i | Final(lines, tells, i) ensures Latest(lines, kind) == kind(lines[i]) {
        if i < n { assert Final(lines[..n], tells, i); }
      }
    }
  }

  /** A line that starts the numbers afresh. */
  predicate Resets(line: Line) {
    line.Progress? && Epoch in line.raw && Epochs in line.raw && Plausible(line.raw, false)
  }

  /** A line that adds to the numbers: a summary of a completed run, or a marker of all epochs that does not show the last. */
  predicate Adds(line: Line, complete: bool) {
    || (line.Summary? && complete && Plausible(line.raw, false))
    || (line.Marker? && line.vouched && line.reason == Some(EpochsCompleted) && Plausible(line.raw, false) && !TellsReason(line))
  }

  /** Line i shows a value of f that no later line takes away or replaces. */
  ghost predicate Shows(lines: seq<Line>, complete: bool, f: Field, i: int) {
    && 0 <= i < |lines| && !lines[i].Noise? && (Resets(lines[i]) || Adds(lines[i], complete)) && f in lines[i].raw
    && (forall j :: i < j < |lines| ==> !Resets(lines[j]) && !(Adds(lines[j], complete) && f in lines[j].raw))
  }

  /** The numbers on the way are those that the lines since the last progress line show, the latest of each field. */
  lemma ProgressMeans(lines: seq<Line>, complete: bool, f: Field)
    ensures f in ProgressOf(lines, complete) <==> exists i :: Shows(lines, complete, f, i)
    ensures forall i :: Shows(lines, complete, f, i) ==> f in ProgressOf(lines, complete) && ProgressOf(lines, complete)[f] == lines[i].raw[f]
  {
    hide ProgressOf, Shows;
    if f in ProgressOf(lines, complete) {
      var i := LineThatShows(lines, complete, f);
    }
    forall i | Shows(lines, complete, f, i) ensures f in ProgressOf(lines, complete) && Shown(lines, complete, f, i) {
      ShownByLine(lines, complete, f, i);
    }
    assert forall i :: Shows(lines, complete, f, i) ==> Shown(lines, complete, f, i);
  }

  lemma {:induction false} LineThatShows(lines: seq<Line>, complete: bool, f: Field) returns (i: int)
    requires f in ProgressOf(lines, complete)
    ensures Shows(lines, complete, f, i)
  {
    hide ProgressAfter, Resets, Adds;
    var n := |lines| - 1;
    LineAfter(ProgressOf(lines[..n], complete), lines[n], complete);
    if !lines[n].Noise? && (Resets(lines[n]) || Adds(lines[n], complete)) && f in lines[n].raw {
      i := n;
    } else {
      i := LineThatShows(lines[..n], complete, f);
    }
  }

  predicate Shown(lines: seq<Line>, complete: bool, f: Field, i: int) {
    && 0 <= i < |lines| && !lines[i].Noise? && f in lines[i].raw
    && f in ProgressOf(lines, complete) && ProgressOf(lines, complete)[f] == lines[i].raw[f]
  }

  lemma {:induction false} ShownByLine(lines: seq<Line>, complete: bool, f: Field, i: int)
    requires Shows(lines, complete, f, i)
    ensures Shown(lines, complete, f, i)
  {
    hide ProgressAfter, Resets, Adds;
    var n := |lines| - 1;
    LineAfter(ProgressOf(lines[..n], complete), lines[n], complete);
    if i < n { ShownByLine(lines[..n], complete, f, i); }
  }

  lemma LineAfter(p: Numbers, line: Line, complete: bool)
    ensures Resets(line) || Adds(line, complete) ==> !line.Noise?
    ensures Resets(line) ==> !Adds(line, complete) && ProgressAfter(p, line, complete) == line.raw
    ensures Adds(line, complete) ==> ProgressAfter(p, line, complete) == p + line.raw
    ensures !Resets(line) && !Adds(line, complete) ==> ProgressAfter(p, line, complete) == p
  {
    hide Plausible;
  }

  method TrainingEvidence(lines: seq<Line>, complete: bool) returns (found: Option<Finding>, progress: Numbers)
    ensures found == BestEvidence(lines, complete)
    ensures progress == ProgressOf(lines, complete)
    ensures forall f :: f in progress ==> InRange(f, progress[f])
  {
    hide Plausible, InRange;
    var marker: Option<Finding> := None;
    var early: Option<Finding> := None;
    var completed: Option<Finding> := None;
    progress := map[];
    ghost var kind := (l: Line) => CompletedOf(l, complete);
    for i := 0 to |lines|
      invariant marker == Latest(lines[..i], MarkerOf)
      invariant early == Latest(lines[..i], EarlyOf)
      invariant completed == Latest(lines[..i], kind)
      invariant progress == ProgressOf(lines[..i], complete) && AllInRange(progress)
    {
      assert lines[..i + 1][..i] == lines[..i] && lines[..i + 1][i] == lines[i];
      var line := lines[i];
      match line {
        case Marker(reason, vouched, raw) =>
          if vouched && Stated(reason) {
            if Plausible(raw, reason == Some(TimeBudget)) {
              if reason != Some(EpochsCompleted) || (Epoch in raw && Epochs in raw && raw[Epochs] == raw[Epoch]) {
                marker := Some(Finding(reason.value, Runtime, Confirmed, raw));
              } else {
                PlausibleInRange(progress, raw, false);
                progress := progress + raw;
              }
            }
          }
        case Progress(raw) =>
          if Plausible(raw, false) && Epoch in raw && Epochs in raw {
            PlausibleInRange(map[], raw, false);
            assert map[] + raw == raw;
            progress := raw;
            if complete && raw[Epoch] == raw[Epochs] {
              completed := Some(Finding(EpochsCompleted, Logs, Inferred, raw));
            }
          }
        case EarlyStop(raw) =>
          if Plausible(raw, false) {
            early := Some(Finding(EarlyStopping, Logs, Confirmed, raw));
          }
        case Summary(raw) =>
          if complete && Plausible(raw, false) {
            PlausibleInRange(progress, raw, false);
            progress := progress + raw;
          }
        case FinalProgress(raw) =>
          if complete && Plausible(raw, false) {
            completed := Some(Finding(EpochsCompleted, Logs, Inferred, raw));
          }
        case Noise =>
      }
    }
    assert lines[..|lines|] == lines;
    found := if marker.Some? then marker else if early.Some? then early else completed;
    assert Latest(lines, kind) == Latest(lines, (l: Line) => CompletedOf(l, complete)) by { SameKind(lines, kind, (l: Line) => CompletedOf(l, complete)); }
    assert forall f :: f in progress ==> InRange(f, progress[f]) by { RangeOf(progress); }
  }

  predicate AllInRange(n: Numbers) {
    forall f :: f in n ==> InRange(f, n[f])
  }

  lemma RangeOf(n: Numbers)
    requires AllInRange(n)
    ensures forall f :: f in n ==> InRange(f, n[f])
  {
    hide InRange;
  }

  lemma PlausibleInRange(progress: Numbers, raw: Numbers, overrun: bool)
    requires AllInRange(progress) && Plausible(raw, overrun)
    ensures AllInRange(progress + raw)
  {
    hide InRange;
  }

  lemma {:induction false} SameKind(lines: seq<Line>, k: Line -> Option<Finding>, m: Line -> Option<Finding>)
    requires forall l :: k(l) == m(l)
    ensures Latest(lines, k) == Latest(lines, m)
  {
    if lines != [] { SameKind(lines[..|lines| - 1], k, m); }
  }

  datatype State = CompleteState | ErrorState | CanceledState | OtherState

  /** The record built from the provider's state and the evidence. */
  function Classified(state: State, found: Option<Finding>, progress: Numbers, elapsed: Option<real>, canceled: bool): Details {
    var numbers := progress + (if elapsed.Some? then map[ElapsedSeconds := elapsed.value] else map[])
                   + (if found.Some? then found.value.numbers else map[]);
    var base := Details(Some(Unknown), if found.Some? && !state.CompleteState? then Some(found.value.reason) else None,
                        Some(Provider), Some(Unsure), Some(Text(0)), numbers);
    match state
    case CanceledState =>
      base.(reason := Some(if canceled then UserCanceled else ProviderCanceled), source := Some(if canceled then Relay else Provider),
            confidence := Some(Confirmed), message := Some(Text(1)))
    case ErrorState => base.(reason := Some(ProviderFailed), confidence := Some(Confirmed), message := Some(Text(2)))
    case CompleteState =>
      if found.Some? && found.value.reason != Unknown then
        base.(reason := Some(found.value.reason), source := Some(found.value.source), confidence := Some(found.value.confidence), message := Some(Text(3)))
      else base.(reason := Some(CompletedUnknown), message := Some(Text(4)))
    case OtherState => base
  }

  /** What a classified record tells its reader, for every finding that lines of a log can give. */
  lemma ClassifiedMeans(state: State, found: Option<Finding>, progress: Numbers, elapsed: Option<real>, canceled: bool)
    requires found.Some? ==> found.value.reason in {EarlyStopping, EpochsCompleted, TimeBudget, Unknown}
    ensures var d := Classified(state, found, progress, elapsed, canceled);
      var explained := found.Some? && found.value.reason != Unknown;
      && (d.reason == Some(UserCanceled) <==> state.CanceledState? && canceled)
      && (d.reason == Some(ProviderCanceled) <==> state.CanceledState? && !canceled)
      && (d.reason == Some(ProviderFailed) <==> state.ErrorState?)
      && (d.reason == Some(CompletedUnknown) <==> state.CompleteState? && !explained)
      && (d.reason == Some(Unknown) <==> state.OtherState?)
      && (forall r :: r in {EarlyStopping, EpochsCompleted, TimeBudget} ==> (d.reason == Some(r) <==> state.CompleteState? && found.Some? && found.value.reason == r))
      && d.training == (if state.CompleteState? || found.None? then None else Some(found.value.reason))
      && (d.source == Some(Relay) <==> (state.CanceledState? && canceled) || (state.CompleteState? && explained && found.value.source.Relay?))
      && (d.source in {Some(Runtime), Some(Logs)} ==> state.CompleteState? && explained && d.source == Some(found.value.source))
      && (d.confidence == Some(Confirmed) <==> state.CanceledState? || state.ErrorState? || (state.CompleteState? && explained && found.value.confidence.Confirmed?))
      && (d.confidence == Some(Inferred) <==> state.CompleteState? && explained && found.value.confidence.Inferred?)
      && (forall f :: f in d.numbers <==> f in progress || (elapsed.Some? && f == ElapsedSeconds) || (found.Some? && f in found.value.numbers))
      && (forall f :: found.Some? && f in found.value.numbers ==> d.numbers[f] == found.value.numbers[f])
      && (forall f :: f in d.numbers && (found.None? || f !in found.value.numbers) ==>
            d.numbers[f] == if elapsed.Some? && f == ElapsedSeconds then elapsed.value else progress[f])
  {
  }

  lemma {:induction false} LatestStated(lines: seq<Line>, kind: Line -> Option<Finding>)
    requires forall l :: kind(l).Some? ==> Stated(Some(kind(l).value.reason))
    ensures Latest(lines, kind).Some? ==> Stated(Some(Latest(lines, kind).value.reason))
  {
    if lines != [] { LatestStated(lines[..|lines| - 1], kind); }
  }

  /** The classifier's own record can be merged any number of times: what it writes for an unexplained completion never
      confirms itself. */
  lemma ClassifierMergesOnce(previous: Option<Details>, state: State, lines: seq<Line>, progress: Numbers, elapsed: Option<real>, canceled: bool)
    ensures var d := Classified(state, BestEvidence(lines, state.CompleteState?), progress, elapsed, canceled);
      Merge(Some(Merge(previous, d)), d) == Merge(previous, d)
  {
    hide Plausible, Merge;
    var found := BestEvidence(lines, state.CompleteState?);
    LatestStated(lines, MarkerOf);
    LatestStated(lines, EarlyOf);
    LatestStated(lines, (l: Line) => CompletedOf(l, state.CompleteState?));
    MergeTwice(previous, Classified(state, found, progress, elapsed, canceled));
  }

  /** A classified record erases a recorded training reason exactly when its best evidence is a marker that names no
      reason and the provider did not report completion. */
  lemma ClassifierErasesExactly(previous: Details, state: State, lines: seq<Line>, progress: Numbers, elapsed: Option<real>, canceled: bool)
    requires Records(previous)
    ensures var found := BestEvidence(lines, state.CompleteState?);
      !Records(Merge(Some(previous), Classified(state, found, progress, elapsed, canceled))) <==>
        !state.CompleteState? && found.Some? && found.value.reason == Unknown
  {
    hide Plausible, Merge;
    var found := BestEvidence(lines, state.CompleteState?);
    LatestStated(lines, MarkerOf);
    LatestStated(lines, EarlyOf);
    LatestStated(lines, (l: Line) => CompletedOf(l, state.CompleteState?));
    LosesExactly(previous, Classified(state, found, progress, elapsed, canceled));
  }
}
