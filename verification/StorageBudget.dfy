/** Disk reservations: how admission, chunk commits, assembly and extraction keep the promised bytes free. */
module StorageBudget {
  import opened Basics
  import opened Options
  import opened Database

  type Amounts = map<JobId, nat>

  ghost function Total(m: Amounts): nat {
    if m == map[] then 0
    else
      var j :| j in m;
      m[j] + Total(m - {j})
  }

  lemma {:induction false} TotalWithout(m: Amounts, j: JobId)
    requires j in m
    ensures Total(m) == m[j] + Total(m - {j})
    decreases |m|
  {
    var c :| c in m && Total(m) == m[c] + Total(m - {c});
    if c != j {
      TotalWithout(m - {c}, j);
      TotalWithout(m - {j}, c);
      assert m - {c} - {j} == m - {j} - {c};
    }
  }

  function At(m: Amounts, j: JobId): nat {
    if j in m then m[j] else 0
  }

  lemma TotalSet(m: Amounts, j: JobId, n: nat)
    ensures Total(m[j := n]) + At(m, j) == Total(m) + n
    ensures Total(m - {j}) + At(m, j) == Total(m)
  {
    TotalWithout(m[j := n], j);
    assert m[j := n] - {j} == m - {j};
    if j in m { TotalWithout(m, j); } else { assert m - {j} == m; }
  }

  /** The reservations as the service keeps them; free is what the disk reports. */
  class Budget {
    const minFree: nat
    var free: int
    var reserved: Amounts

    constructor (minFree: nat, free: int)
      ensures this.minFree == minFree && this.free == free && reserved == map[]
    {
      this.minFree, this.free, reserved := minFree, free, map[];
    }

    /** SUM(reserved_bytes) over the other jobs. */
    method TotalReserved(excluding: set<JobId>) returns (total: nat)
      ensures total == Total(reserved - excluding)
    {
      total := 0;
      var rest := reserved - excluding;
      while rest != map[]
        invariant total + Total(rest) == Total(reserved - excluding)
        decreases |rest|
      {
        var j :| j in rest.Keys;
        TotalWithout(rest, j);
        total := total + rest[j];
        rest := rest - {j};
      }
    }

    method CheckFree(needed: nat) returns (ok: bool)
      ensures ok <==> free >= minFree + needed
    {
      ok := free >= minFree + needed;
    }

    /** Admission of a new job: all reservations and the new one must fit. */
    method Admit(j: JobId, needed: nat) returns (ok: bool)
      requires j !in reserved
      modifies this`reserved
      ensures ok <==> free >= minFree + Total(old(reserved)) + needed
      ensures reserved == if ok then old(reserved)[j := needed] else old(reserved)
    {
      var total := TotalReserved({});
      assert reserved - {} == reserved;
      ok := CheckFree(total + needed);
      if ok {
        reserved := reserved[j := needed];
      }
    }

    /** Replaces a job's reservation; the other jobs' reservations and the new one must fit. */
    method Reserve(j: JobId, needed: nat) returns (ok: bool)
      requires j in reserved
      modifies this`reserved
      ensures ok <==> free >= minFree + Total(old(reserved) - {j}) + needed
      ensures reserved == if ok then old(reserved)[j := needed] else old(reserved)
    {
      var total := TotalReserved({j});
      ok := CheckFree(total + needed);
      if ok {
        reserved := reserved[j := needed];
      }
    }

    method Consume(j: JobId, size: nat)
      requires j in reserved
      modifies this`reserved
      ensures reserved == old(reserved)[j := Less(old(reserved)[j], size)]
    {
      reserved := reserved[j := Less(reserved[j], size)];
    }
  }

  // ---- conservation over whole runs ----

  /** Uploading: chunks arrive; again: an assembly was given up, for want of space or by a restart.  Joining and Unpacking
      are the two halves of an assembly, under the reservation made for them; Unpacking(0) is an assembly that is done. */
  datatype Stage = Uploading(again: bool) | Joining(cached: bool) | Unpacking(reservedFor: nat) | Ended

  datatype Input = Input(dataset: nat, kernel: nat, accepted: nat, stage: Stage)

  /** written: bytes a job put on disk that no deduction or new reservation has accounted for yet;
      foreign: bytes that other writers put there. */
  datatype World = World(minFree: nat, free: int, foreign: nat, reserved: Amounts, written: Amounts, inputs: map<JobId, Input>)

  /** Apart from other writers' bytes, free space and undeducted bytes cover the floor and every reservation. */
  ghost predicate Covered(w: World) {
    w.free + w.foreign + Total(w.written) >= w.minFree + Total(w.reserved)
  }

  datatype Event =
    | Admitted(job: JobId, dataset: nat, kernel: nat)
    | Wrote(job: JobId, bytes: nat)            // streaming, copying or extracting
    | Dropped(job: JobId, bytes: nat)          // temporary or deleted files
    | CommittedChunk(job: JobId, size: nat)
    | BeganJoining(job: JobId, cached: bool)
    | JoinedDataset(job: JobId)
    | BeganUnpacking(job: JobId, needed: nat)
    | Unpacked(job: JobId)
    | WentBack(job: JobId)                     // not enough space, or a restart: the assembly is given up
    | Finished(job: JobId)
    | Foreign(bytes: nat)
    | Freed(bytes: nat)                        // by other writers, their own bytes first

  ghost predicate Possible(w: World, e: Event) {
    match e
    case Admitted(j, d, k) => j !in w.inputs && w.free >= w.minFree + Total(w.reserved) + 3 * (d + k)
    case Wrote(j, _) => j in w.inputs
    case Dropped(j, _) => j in w.inputs
    case CommittedChunk(j, size) =>
      j in w.inputs && w.inputs[j].stage.Uploading? && w.inputs[j].accepted + size <= w.inputs[j].dataset + w.inputs[j].kernel
    case BeganJoining(j, cached) =>
      j in w.inputs && w.inputs[j].stage.Uploading?
      && (if cached then w.inputs[j].accepted >= w.inputs[j].kernel else w.inputs[j].accepted == w.inputs[j].dataset + w.inputs[j].kernel)
      && w.free >= w.minFree + Total(w.reserved - {j}) + JoinNeed(w.inputs[j], cached)
    case JoinedDataset(j) => j in w.inputs && w.inputs[j].stage == Joining(false)
    case BeganUnpacking(j, needed) =>
      j in w.inputs && w.inputs[j].stage.Joining? && w.free >= w.minFree + Total(w.reserved - {j}) + needed
    case Unpacked(j) => j in w.inputs && w.inputs[j].stage.Unpacking?
    case WentBack(j) => j in w.inputs && (w.inputs[j].stage.Joining? || w.inputs[j].stage.Unpacking? || w.inputs[j].stage.Uploading?)
    case Finished(j) => j in w.inputs
    case Foreign(_) => true
    case Freed(_) => true
  }

  /** Twice the archives that are joined. */
  function JoinNeed(i: Input, cached: bool): nat {
    2 * (i.kernel + if cached then 0 else i.dataset)
  }

  function Deduct(w: World, j: JobId, size: nat): World {
    w.(reserved := w.reserved[j := Less(At(w.reserved, j), size)], written := w.written[j := Less(At(w.written, j), size)])
  }

  function Move(w: World, j: JobId, stage: Stage): World
    requires j in w.inputs
  {
    w.(inputs := w.inputs[j := w.inputs[j].(stage := stage)])
  }

  ghost function Next(w: World, e: Event): World
    requires Possible(w, e)
  {
    match e
    case Admitted(j, d, k) =>
      w.(inputs := w.inputs[j := Input(d, k, 0, Uploading(false))], reserved := w.reserved[j := 3 * (d + k)], written := w.written[j := 0])
    case Wrote(j, n) => w.(free := w.free - n, written := w.written[j := At(w.written, j) + n])
    case Dropped(j, n) => w.(free := w.free + n, written := w.written[j := Less(At(w.written, j), n)])
    case CommittedChunk(j, size) =>
      var i := w.inputs[j];
      Deduct(w, j, size).(inputs := w.inputs[j := i.(accepted := i.accepted + size)])
    case BeganJoining(j, cached) =>
      Move(w, j, Joining(cached)).(reserved := w.reserved[j := JoinNeed(w.inputs[j], cached)], written := w.written[j := 0])
    case JoinedDataset(j) => Deduct(Move(w, j, Joining(true)), j, w.inputs[j].dataset)
    case BeganUnpacking(j, needed) =>
      Move(w, j, Unpacking(needed)).(reserved := w.reserved[j := needed], written := w.written[j := 0])
    case Unpacked(j) => Deduct(Move(w, j, Unpacking(0)), j, w.inputs[j].stage.reservedFor)
    case WentBack(j) => Move(w, j, Uploading(true))
    case Finished(j) => Move(w, j, Ended).(reserved := w.reserved[j := 0])
    case Foreign(n) => w.(free := w.free - n, foreign := w.foreign + n)
    case Freed(n) => w.(free := w.free + n, foreign := Less(w.foreign, n))
  }

  /** The reservation an assembly works under. */
  predicate StageOk(i: Input, reserved: nat) {
    match i.stage
    case Joining(cached) => !cached ==> reserved == 2 * (i.dataset + i.kernel)
    case Unpacking(needed) => reserved == needed
    case _ => true
  }

  ghost predicate Orderly(w: World) {
    && w.reserved.Keys == w.written.Keys == w.inputs.Keys
    && forall j :: j in w.inputs ==> StageOk(w.inputs[j], w.reserved[j])
  }

  lemma NextOrderly(w: World, e: Event)
    requires Orderly(w) && Possible(w, e)
    ensures Orderly(Next(w, e))
  {
    hide Total;
    match e {
      case Admitted(j, d, k) => assert Orderly(Next(w, e));
      case Wrote(j, n) => assert Orderly(Next(w, e));
      case Dropped(j, n) => assert Orderly(Next(w, e));
      case CommittedChunk(j, size) => assert Orderly(Next(w, e));
      case BeganJoining(j, cached) => assert Orderly(Next(w, e));
      case JoinedDataset(j) => assert Orderly(Next(w, e));
      case BeganUnpacking(j, needed) => assert Orderly(Next(w, e));
      case Unpacked(j) => assert Orderly(Next(w, e));
      case WentBack(j) => assert Orderly(Next(w, e));
      case Finished(j) => assert Orderly(Next(w, e));
      case Foreign(n) =>
      case Freed(n) =>
    }
  }

  /** What the cover has to spare. */
  ghost function Slack(w: World): int {
    w.free + w.foreign + Total(w.written) - w.minFree - Total(w.reserved)
  }

  /** By how much a chunk commit takes more from the bytes counted as written than from the reservation; both stop
      at zero.  The bytes of a stream that outlived a failed assembly may no longer be counted as written. */
  function Lost(w: World, e: Event): int {
    if e.CommittedChunk? then
      (At(w.written, e.job) - Less(At(w.written, e.job), e.size)) - (At(w.reserved, e.job) - Less(At(w.reserved, e.job), e.size))
    else 0
  }

  /** The reservation still holds the chunk, or at least what of it is still counted as written. */
  predicate Held(w: World, e: Event) {
    e.CommittedChunk? ==> e.size <= At(w.reserved, e.job) || At(w.written, e.job) <= At(w.reserved, e.job)
  }

  lemma HeldLosesNothing(w: World, e: Event)
    ensures Held(w, e) <==> Lost(w, e) <= 0
  {
  }

  /** A deduction keeps the cover exactly when the bytes it stops counting as written are no more than those it
      takes from the reservation, or there is slack for the difference. */
  lemma DeductCovers(w: World, j: JobId, size: nat)
    requires j in w.reserved && j in w.written
    ensures var lost := (w.written[j] - Less(w.written[j], size)) - (w.reserved[j] - Less(w.reserved[j], size));
      Covered(Deduct(w, j, size)) <==> Slack(w) >= lost
  {
    TotalSet(w.reserved, j, Less(w.reserved[j], size));
    TotalSet(w.written, j, Less(w.written[j], size));
  }

  /** Every event keeps the cover, whatever the stage of the job, except a chunk commit that loses bytes: that keeps it
      exactly when there is slack for them. */
  lemma NextCovered(w: World, e: Event)
    requires Orderly(w) && Covered(w) && Possible(w, e)
    ensures if e.CommittedChunk? then Covered(Next(w, e)) <==> Slack(w) >= Lost(w, e) else Covered(Next(w, e))
  {
    hide Total, Orderly, StageOk;
    assert w.reserved.Keys == w.written.Keys == w.inputs.Keys by { SameJobs(w); }
    match e {
      case Admitted(j, d, k) => TotalSet(w.reserved, j, 3 * (d + k)); TotalSet(w.written, j, 0);
      case Wrote(j, n) => TotalSet(w.written, j, At(w.written, j) + n);
      case Dropped(j, n) => TotalSet(w.written, j, Less(At(w.written, j), n));
      case CommittedChunk(j, size) => DeductCovers(w, j, size);
      case BeganJoining(j, cached) => ReserveCovers(w, j, JoinNeed(w.inputs[j], cached));
      case JoinedDataset(j) => HoldsAssembly(w, j); DeductCovers(Move(w, j, Joining(true)), j, w.inputs[j].dataset);
      case BeganUnpacking(j, needed) => ReserveCovers(w, j, needed);
      case Unpacked(j) => HoldsAssembly(w, j); DeductCovers(Move(w, j, Unpacking(0)), j, w.inputs[j].stage.reservedFor);
      case WentBack(j) =>
      case Finished(j) => TotalSet(w.reserved, j, 0);
      case Foreign(n) =>
      case Freed(n) =>
    }
  }

  lemma SameJobs(w: World)
    requires Orderly(w)
    ensures w.reserved.Keys == w.written.Keys == w.inputs.Keys
  {
  }

  /** The two consumptions of an assembly are never clamped. */
  lemma HoldsAssembly(w: World, j: JobId)
    requires Orderly(w) && j in w.inputs
    ensures j in w.reserved && j in w.written
    ensures w.inputs[j].stage == Joining(false) ==> w.inputs[j].dataset <= w.reserved[j]
    ensures w.inputs[j].stage.Unpacking? ==> w.inputs[j].stage.reservedFor <= w.reserved[j]
  {
    assert StageOk(w.inputs[j], w.reserved[j]);
  }

  /** A successful check against the disk starts the account afresh, whatever was written before. */
  lemma ReserveCovers(w: World, j: JobId, needed: nat)
    requires j in w.reserved && j in w.written && w.free >= w.minFree + Total(w.reserved - {j}) + needed
    ensures Covered(w.(reserved := w.reserved[j := needed], written := w.written[j := 0]))
  {
    TotalSet(w.reserved, j, needed);
  }

  function OnDisk(w: World, free: int): World {
    w.(free := free)
  }

  /** The exact condition: a chunk commit keeps the cover on every disk, however full, if and only if the job's
      reservation still holds the chunk, or what of it is still counted as written. */
  lemma FitsExactly(w: World, j: JobId, size: nat)
    requires Orderly(w) && Possible(w, CommittedChunk(j, size))
    ensures Held(w, CommittedChunk(j, size)) <==>
            (forall free: int :: Covered(OnDisk(w, free)) ==>
               Possible(OnDisk(w, free), CommittedChunk(j, size)) && Covered(Next(OnDisk(w, free), CommittedChunk(j, size))))
  {
    hide Total, Next, Lost, Held;
    var e := CommittedChunk(j, size);
    HeldLosesNothing(w, e);
    forall free: int | Covered(OnDisk(w, free))
      ensures Covered(Next(OnDisk(w, free), e)) <==> Slack(OnDisk(w, free)) >= Lost(w, e)
    {
      NextCovered(OnDisk(w, free), e);
      SameLost(w, free, e);
    }
    var full := OnDisk(w, w.minFree + Total(w.reserved) - w.foreign - Total(w.written));
    assert Covered(full) && Slack(full) == 0;
  }

  lemma SameLost(w: World, free: int, e: Event)
    ensures Lost(OnDisk(w, free), e) == Lost(w, e)
  {
  }

  ghost predicate Execution(ws: seq<World>, es: seq<Event>) {
    && |ws| == |es| + 1
    && ws[0].reserved == map[] && ws[0].written == map[] && ws[0].inputs == map[] && ws[0].free + ws[0].foreign >= ws[0].minFree
    && forall i :: 0 <= i < |es| ==> Possible(ws[i], es[i]) && ws[i + 1] == Next(ws[i], es[i])
  }

  lemma {:induction false} AlwaysOrderly(ws: seq<World>, es: seq<Event>, k: nat)
    requires Execution(ws, es) && k < |ws|
    ensures Orderly(ws[k])
  {
    hide Covered, Next, Possible, Orderly;
    if k == 0 {
      EmptyCovered(ws[0]);
    } else {
      AlwaysOrderly(ws, es, k - 1);
      NextOrderly(ws[k - 1], es[k - 1]);
    }
  }

  /** In every run, cached datasets, failed assemblies and streams that outlive them included: as long as every
      committed chunk was still held by its job's reservation, the cover holds. */
  lemma {:induction false} AlwaysCovered(ws: seq<World>, es: seq<Event>, k: nat)
    requires Execution(ws, es) && k < |ws| && forall i :: 0 <= i < k ==> Held(ws[i], es[i])
    ensures Covered(ws[k])
  {
    hide Next, Possible, Orderly, Total, Held, Lost;
    if k == 0 {
      EmptyCovered(ws[0]);
    } else {
      AlwaysCovered(ws, es, k - 1);
      AlwaysOrderly(ws, es, k - 1);
      NextCovered(ws[k - 1], es[k - 1]);
      HeldLosesNothing(ws[k - 1], es[k - 1]);
    }
  }

  lemma EmptyCovered(w: World)
    requires w.reserved == map[] && w.written == map[] && w.inputs == map[] && w.free + w.foreign >= w.minFree
    ensures Covered(w) && Orderly(w)
  {
  }

  // ---- jobs that upload both archives ----

  predicate UploadOk(i: Input, reserved: nat) {
    && i.accepted <= i.dataset + i.kernel
    && match i.stage
       case Uploading(again) => if again then i.accepted == i.dataset + i.kernel else reserved == 3 * (i.dataset + i.kernel) - i.accepted
       case Joining(_) => i.accepted == i.dataset + i.kernel
       case Unpacking(_) => i.accepted == i.dataset + i.kernel
       case Ended => true
  }

  ghost predicate Uploaded(w: World) {
    && w.reserved.Keys == w.inputs.Keys
    && forall j :: j in w.inputs ==> UploadOk(w.inputs[j], w.reserved[j])
  }

  /** Assemblies join both archives, and are begun only when both are there. */
  predicate Uncached(w: World, e: Event) {
    && (e.BeganJoining? ==> !e.cached)
    && (e.WentBack? && e.job in w.inputs && w.inputs[e.job].stage.Uploading? ==>
          w.inputs[e.job].accepted == w.inputs[e.job].dataset + w.inputs[e.job].kernel)
  }

  lemma NextUploaded(w: World, e: Event)
    requires Uploaded(w) && Possible(w, e) && Uncached(w, e)
    ensures Uploaded(Next(w, e))
  {
    hide Total;
    match e {
      case Admitted(j, d, k) => assert Uploaded(Next(w, e));
      case Wrote(j, n) => assert Uploaded(Next(w, e));
      case Dropped(j, n) => assert Uploaded(Next(w, e));
      case CommittedChunk(j, size) => assert Uploaded(Next(w, e));
      case BeganJoining(j, cached) => assert Uploaded(Next(w, e));
      case JoinedDataset(j) => assert Uploaded(Next(w, e));
      case BeganUnpacking(j, needed) => assert Uploaded(Next(w, e));
      case Unpacked(j) => assert Uploaded(Next(w, e));
      case WentBack(j) => assert Uploaded(Next(w, e));
      case Finished(j) => assert Uploaded(Next(w, e));
      case Foreign(n) =>
      case Freed(n) =>
    }
  }

  lemma ChunkHeld(w: World, e: Event)
    requires Uploaded(w) && Possible(w, e) && e.CommittedChunk?
    ensures e.size <= At(w.reserved, e.job)
  {
    hide Total;
    assert UploadOk(w.inputs[e.job], w.reserved[e.job]);
  }

  /** In a run in which both archives are uploaded every committed chunk is held, so nothing is ever clamped. */
  lemma {:induction false} UploadsNeverClamp(ws: seq<World>, es: seq<Event>, k: nat)
    requires Execution(ws, es) && k < |ws| && forall i :: 0 <= i < |es| ==> Uncached(ws[i], es[i])
    ensures Uploaded(ws[k])
    ensures forall i :: 0 <= i < k && es[i].CommittedChunk? ==> es[i].size <= At(ws[i].reserved, es[i].job)
    ensures Covered(ws[k])
  {
    hide Covered, Next, Possible, Uploaded, Uncached;
    if k == 0 {
      NoneUploaded(ws[0]);
    } else {
      UploadsNeverClamp(ws, es, k - 1);
      NextUploaded(ws[k - 1], es[k - 1]);
      if es[k - 1].CommittedChunk? { ChunkHeld(ws[k - 1], es[k - 1]); }
    }
    AlwaysCovered(ws, es, k);
  }

  lemma NoneUploaded(w: World)
    requires w.reserved == map[] && w.inputs == map[]
    ensures Uploaded(w)
  {
  }

  // ---- the cached case ----

  const FLOW := 9

  /** What a cached assembly reserved when it ran out of space: while joining (None), or while unpacking. */
  function Left(k: nat, unpacking: Option<nat>): nat {
    if unpacking.Some? then unpacking.value else 2 * k
  }

  function Step(d: nat, k: nat, unpacking: Option<nat>, i: nat): Event {
    match i
    case 0 => Admitted(0, d, k)
    case 1 => Wrote(0, k)
    case 2 => CommittedChunk(0, k)
    case 3 => BeganJoining(0, true)
    case 4 => if unpacking.Some? then BeganUnpacking(0, unpacking.value) else Wrote(0, 0)
    case 5 => Admitted(1, d, k)
    case 6 => WentBack(0)
    case 7 => Wrote(0, d)
    case _ => CommittedChunk(0, d)
  }

  function Own(d: nat, k: nat, accepted: nat, stage: Stage): map<JobId, Input> {
    map[0 := Input(d, k, accepted, stage)]
  }

  function Both(d: nat, k: nat, accepted: nat, stage: Stage): map<JobId, Input> {
    map[0 := Input(d, k, accepted, stage), 1 := Input(d, k, 0, Uploading(false))]
  }

  /** The worlds of that flow on a disk that the two jobs fill exactly. */
  function WorldAt(d: nat, k: nat, unpacking: Option<nat>, i: nat): World {
    var r, f := Left(k, unpacking), 3 * (d + k);
    var failed := if unpacking.Some? then Unpacking(r) else Joining(true);
    match i
    case 0 => World(0, k + r + f, 0, map[], map[], map[])
    case 1 => World(0, k + r + f, 0, map[0 := f], map[0 := 0], Own(d, k, 0, Uploading(false)))
    case 2 => World(0, r + f, 0, map[0 := f], map[0 := k], Own(d, k, 0, Uploading(false)))
    case 3 => World(0, r + f, 0, map[0 := f - k], map[0 := 0], Own(d, k, k, Uploading(false)))
    case 4 => World(0, r + f, 0, map[0 := 2 * k], map[0 := 0], Own(d, k, k, Joining(true)))
    case 5 => World(0, r + f, 0, map[0 := r], map[0 := 0], Own(d, k, k, failed))
    case 6 => World(0, r + f, 0, map[0 := r, 1 := f], map[0 := 0, 1 := 0], Both(d, k, k, failed))
    case 7 => World(0, r + f, 0, map[0 := r, 1 := f], map[0 := 0, 1 := 0], Both(d, k, k, Uploading(true)))
    case 8 => World(0, r + f - d, 0, map[0 := r, 1 := f], map[0 := d, 1 := 0], Both(d, k, k, Uploading(true)))
    case _ => World(0, r + f - d, 0, map[0 := Less(r, d), 1 := f], map[0 := 0, 1 := 0], Both(d, k, k + d, Uploading(true)))
  }

  function Flow(d: nat, k: nat, unpacking: Option<nat>): seq<Event> {
    seq(FLOW, i requires 0 <= i < FLOW => Step(d, k, unpacking, i))
  }

  function Worlds(d: nat, k: nat, unpacking: Option<nat>): seq<World> {
    seq(FLOW + 1, i requires 0 <= i < FLOW + 1 => WorldAt(d, k, unpacking, i))
  }

  lemma One(j: JobId, n: nat)
    ensures Total(map[j := n]) == n
  {
    TotalSet(map[], j, n);
    assert map[][j := n] == map[j := n];
  }

  lemma Two(m: nat, n: nat)
    ensures Total(map[0 := m, 1 := n]) == m + n
  {
    One(0, m);
    TotalSet(map[0 := m], 1, n);
    assert map[0 := m][1 := n] == map[0 := m, 1 := n];
  }

  /** A job whose dataset was cached reserves only for its kernel.  If that assembly runs out of space, while joining or
      while unpacking, and the dataset is uploaded after all, its chunk is deducted from a reservation that does not
      hold it: for every dataset larger than what is left reserved, bytes are lost to the clamp and the cover breaks,
      although it held in every world before. */
  lemma CachedAssemblyLosesBytes(d: nat, k: nat, unpacking: Option<nat>)
    requires d > Left(k, unpacking)
    ensures Execution(Worlds(d, k, unpacking), Flow(d, k, unpacking))
    ensures forall i :: 0 <= i < FLOW ==> Covered(Worlds(d, k, unpacking)[i])
    ensures !Covered(Worlds(d, k, unpacking)[FLOW])
    ensures At(Worlds(d, k, unpacking)[FLOW - 1].reserved, 0) == Left(k, unpacking)
  {
    hide Total, Possible, Next, Step, Covered;
    var ws, es := Worlds(d, k, unpacking), Flow(d, k, unpacking);
    forall i | 0 <= i < FLOW
      ensures Possible(WorldAt(d, k, unpacking, i), Step(d, k, unpacking, i))
      ensures WorldAt(d, k, unpacking, i + 1) == Next(WorldAt(d, k, unpacking, i), Step(d, k, unpacking, i))
    {
      Flows(d, k, unpacking, i);
    }
    forall i | 0 <= i < FLOW ensures Covered(ws[i]) {
      ChunksHeld(d, k, unpacking, i);
      AlwaysCovered(ws, es, i);
    }
    Broken(d, k, unpacking);
  }

  /** Every chunk but the last is held by its reservation. */
  lemma ChunksHeld(d: nat, k: nat, unpacking: Option<nat>, i: nat)
    ensures forall j :: 0 <= j < i < FLOW ==> Held(WorldAt(d, k, unpacking, j), Step(d, k, unpacking, j))
  {
    forall j | 0 <= j < i < FLOW ensures Held(WorldAt(d, k, unpacking, j), Step(d, k, unpacking, j)) {
      if Step(d, k, unpacking, j).CommittedChunk? { assert j == 2; }
    }
  }

  lemma Broken(d: nat, k: nat, unpacking: Option<nat>)
    requires d > Left(k, unpacking)
    ensures !Covered(WorldAt(d, k, unpacking, FLOW))
  {
    hide Total;
    Two(0, 3 * (d + k));
    Two(0, 0);
  }

  lemma Flows(d: nat, k: nat, unpacking: Option<nat>, i: nat)
    requires i < FLOW
    ensures Possible(WorldAt(d, k, unpacking, i), Step(d, k, unpacking, i))
    ensures WorldAt(d, k, unpacking, i + 1) == Next(WorldAt(d, k, unpacking, i), Step(d, k, unpacking, i))
  {
    hide Possible, Next, WorldAt;
    if i == 0 { Flow0(d, k, unpacking); } else if i == 1 { Flow1(d, k, unpacking); } else if i == 2 { Flow2(d, k, unpacking); }
    else if i == 3 { Flow3(d, k, unpacking); } else if i == 4 { Flow4(d, k, unpacking); } else if i == 5 { Flow5(d, k, unpacking); }
    else if i == 6 { Flow6(d, k, unpacking); } else if i == 7 { Flow7(d, k, unpacking); } else { Flow8(d, k, unpacking); }
  }

  lemma Flow0(d: nat, k: nat, unpacking: Option<nat>)
    ensures Possible(WorldAt(d, k, unpacking, 0), Step(d, k, unpacking, 0))
    ensures WorldAt(d, k, unpacking, 1) == Next(WorldAt(d, k, unpacking, 0), Step(d, k, unpacking, 0))
  {
    hide Total;
    EmptyTotal();
  }

  lemma Flow1(d: nat, k: nat, unpacking: Option<nat>)
    ensures Possible(WorldAt(d, k, unpacking, 1), Step(d, k, unpacking, 1))
    ensures WorldAt(d, k, unpacking, 2) == Next(WorldAt(d, k, unpacking, 1), Step(d, k, unpacking, 1))
  {
    hide Total;
  }

  lemma Flow2(d: nat, k: nat, unpacking: Option<nat>)
    ensures Possible(WorldAt(d, k, unpacking, 2), Step(d, k, unpacking, 2))
    ensures WorldAt(d, k, unpacking, 3) == Next(WorldAt(d, k, unpacking, 2), Step(d, k, unpacking, 2))
  {
    hide Total;
  }

  lemma Flow3(d: nat, k: nat, unpacking: Option<nat>)
    ensures Possible(WorldAt(d, k, unpacking, 3), Step(d, k, unpacking, 3))
    ensures WorldAt(d, k, unpacking, 4) == Next(WorldAt(d, k, unpacking, 3), Step(d, k, unpacking, 3))
  {
    hide Total;
    EmptyTotal();
    assert map[0 := 3 * (d + k) - k] - {0} == map[];
  }

  lemma Flow4(d: nat, k: nat, unpacking: Option<nat>)
    ensures Possible(WorldAt(d, k, unpacking, 4), Step(d, k, unpacking, 4))
    ensures WorldAt(d, k, unpacking, 5) == Next(WorldAt(d, k, unpacking, 4), Step(d, k, unpacking, 4))
  {
    hide Total;
    EmptyTotal();
    assert map[0 := 2 * k] - {0} == map[];
  }

  lemma Flow5(d: nat, k: nat, unpacking: Option<nat>)
    ensures Possible(WorldAt(d, k, unpacking, 5), Step(d, k, unpacking, 5))
    ensures WorldAt(d, k, unpacking, 6) == Next(WorldAt(d, k, unpacking, 5), Step(d, k, unpacking, 5))
  {
    hide Total;
    One(0, Left(k, unpacking));
    assert map[0 := Left(k, unpacking)][1 := 3 * (d + k)] == map[0 := Left(k, unpacking), 1 := 3 * (d + k)];
  }

  lemma Flow6(d: nat, k: nat, unpacking: Option<nat>)
    ensures Possible(WorldAt(d, k, unpacking, 6), Step(d, k, unpacking, 6))
    ensures WorldAt(d, k, unpacking, 7) == Next(WorldAt(d, k, unpacking, 6), Step(d, k, unpacking, 6))
  {
    hide Total;
  }

  lemma Flow7(d: nat, k: nat, unpacking: Option<nat>)
    ensures Possible(WorldAt(d, k, unpacking, 7), Step(d, k, unpacking, 7))
    ensures WorldAt(d, k, unpacking, 8) == Next(WorldAt(d, k, unpacking, 7), Step(d, k, unpacking, 7))
  {
    hide Total;
  }

  lemma Flow8(d: nat, k: nat, unpacking: Option<nat>)
    ensures Possible(WorldAt(d, k, unpacking, 8), Step(d, k, unpacking, 8))
    ensures WorldAt(d, k, unpacking, 9) == Next(WorldAt(d, k, unpacking, 8), Step(d, k, unpacking, 8))
  {
    hide Total, Less;
    Spent(d);
  }

  lemma Spent(n: nat)
    ensures Less(n, n) == 0
  {
  }

  lemma EmptyTotal()
    ensures Total(map[]) == 0
  {
  }
}
