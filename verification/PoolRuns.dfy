/** The worker loop's tables and the jobs' protocol in one system: taking an item is the protocol's dequeue, skip or
    supersede, a thread that ends is the loop's finally block, and every item that a step of a job adds is queued. */
module PoolRuns {
  import opened Options
  import opened Database
  import opened JobProtocol
  import opened WorkerPool
  import JobInvariants
  import QueuedWork
  import RelayRuns
  import opened KaggleRefs

  type Action = JobProtocol.Action
  type Job = JobProtocol.JobState
  type Jobs = map<JobId, Job>
  type Bag = multiset<JobProtocol.Item>
  type Parked = map<Account, seq<WorkerPool.Item>>

  datatype World = World(pool: State, relay: RelayRuns.World)

  const EMPTY := State([], {}, map[], map[], map[])

  function RowsOf(jobs: Jobs): Rows {
    map j | j in jobs :: View(jobs[j].row.status, AwaitingAssignment(jobs[j].row))
  }

  // ---- the items of one job ----

  function Kinds(items: seq<WorkerPool.Item>, j: JobId): Bag {
    if items == [] then multiset{}
    else Kinds(items[..|items| - 1], j) + if items[|items| - 1].job == j then multiset{items[|items| - 1].kind} else multiset{}
  }

  ghost function ParkedKinds(parked: Parked, j: JobId): Bag {
    if parked == map[] then multiset{}
    else
      var a :| a in parked;
      Kinds(parked[a], j) + ParkedKinds(parked - {a}, j)
  }

  ghost function Items(p: State, j: JobId): Bag {
    Kinds(p.queue, j) + ParkedKinds(p.parked, j)
  }

  lemma {:induction false} KindsConcat(s: seq<WorkerPool.Item>, t: seq<WorkerPool.Item>, j: JobId)
    ensures Kinds(s + t, j) == Kinds(s, j) + Kinds(t, j)
    decreases |t|
  {
    if t == [] {
      assert s + t == s;
    } else {
      assert (s + t)[..|s + t| - 1] == s + t[..|t| - 1];
      KindsConcat(s, t[..|t| - 1], j);
    }
  }

  lemma KindsFirst(s: seq<WorkerPool.Item>, j: JobId)
    requires s != []
    ensures Kinds(s, j) == (if s[0].job == j then multiset{s[0].kind} else multiset{}) + Kinds(s[1..], j)
  {
    assert [s[0]] + s[1..] == s;
    KindsConcat([s[0]], s[1..], j);
    assert [s[0]][..0] == [];
    assert Kinds([s[0]], j) == if s[0].job == j then multiset{s[0].kind} else multiset{};
  }

  lemma Rotate(x: Bag, y: Bag, z: Bag)
    ensures x + (y + z) == y + (x + z)
  {
  }

  lemma {:induction false} ParkedWithout(parked: Parked, a: Account, j: JobId)
    ensures ParkedKinds(parked, j) == Kinds(ParkedOf(parked, a), j) + ParkedKinds(parked - {a}, j)
    decreases |parked|
  {
    hide Kinds;
    if a !in parked {
      assert parked - {a} == parked;
      NoKinds(j);
    } else {
      var c :| c in parked && ParkedKinds(parked, j) == Kinds(parked[c], j) + ParkedKinds(parked - {c}, j);
      if c != a {
        hide ParkedKinds;
        var rest := parked - {c} - {a};
        assert parked - {a} - {c} == rest;
        ParkedWithout(parked - {c}, a, j);
        ParkedWithout(parked - {a}, c, j);
        Rotate(Kinds(parked[c], j), Kinds(parked[a], j), ParkedKinds(rest, j));
      }
    }
  }

  lemma NoKinds(j: JobId)
    ensures Kinds([], j) == multiset{}
  {
  }

  lemma ParkedSet(parked: Parked, a: Account, items: seq<WorkerPool.Item>, j: JobId)
    ensures ParkedKinds(parked[a := items], j) == Kinds(items, j) + ParkedKinds(parked - {a}, j)
  {
    ParkedWithout(parked[a := items], a, j);
    assert parked[a := items] - {a} == parked - {a};
  }

  /** The item of the job that waits in the list, whose place a newer item takes. */
  function Place(waiting: seq<WorkerPool.Item>, j: JobId): Option<JobProtocol.Item> {
    if waiting == [] then None
    else if waiting[0].job == j then Some(waiting[0].kind)
    else Place(waiting[1..], j)
  }

  lemma {:induction false} ParkKinds(waiting: seq<WorkerPool.Item>, item: WorkerPool.Item, j: JobId)
    ensures var older, kinds, after := Place(waiting, item.job), Kinds(waiting, j), Kinds(Park(waiting, item), j);
      if j != item.job then after == kinds
      else if older.None? then after == kinds + multiset{item.kind}
      else older.value in kinds && after == kinds - multiset{older.value} + multiset{item.kind}
  {
    hide Kinds;
    if waiting == [] {
      KindsFirst([item], j);
      assert [item][1..] == [];
      NoKinds(j);
    } else {
      var parked := Park(waiting, item);
      KindsFirst(waiting, j);
      KindsFirst(parked, j);
      if waiting[0].job == item.job {
        assert parked[0] == item && parked[1..] == waiting[1..];
        if j == item.job { Exchange(waiting[0].kind, item.kind, Kinds(waiting[1..], j)); }
      } else {
        ParkKinds(waiting[1..], item, j);
        assert parked[0] == waiting[0] && parked[1..] == Park(waiting[1..], item);
        if j == item.job {
          assert Kinds(waiting, j) == Kinds(waiting[1..], j);
          assert Kinds(parked, j) == Kinds(parked[1..], j);
        }
      }
    }
  }

  lemma Exchange(x: JobProtocol.Item, y: JobProtocol.Item, rest: Bag)
    ensures multiset{y} + rest == multiset{x} + rest - multiset{x} + multiset{y}
  {
  }

  lemma {:induction false} PlaceFound(waiting: seq<WorkerPool.Item>, j: JobId)
    ensures Place(waiting, j).Some? ==> exists i :: 0 <= i < |waiting| && waiting[i].kind == Place(waiting, j).value
  {
    if waiting != [] && waiting[0].job != j {
      PlaceFound(waiting[1..], j);
      if Place(waiting, j).Some? {
        var i :| 0 <= i < |waiting[1..]| && waiting[1..][i].kind == Place(waiting, j).value;
        assert waiting[i + 1].kind == Place(waiting, j).value;
      }
    } else if waiting != [] {
      assert waiting[0].kind == Place(waiting, j).value;
    }
  }

  lemma {:induction false} KindsWait(items: seq<WorkerPool.Item>, j: JobId)
    ensures Runnable(Kinds(items, j)) <==> Waits(items, j)
  {
    if items != [] {
      var front, last := items[..|items| - 1], items[|items| - 1];
      KindsWait(front, j);
      if Waits(front, j) {
        var i :| 0 <= i < |front| && front[i].job == j && !front[i].Resumes();
        assert items[i] == front[i];
      }
      if Waits(items, j) {
        var i :| 0 <= i < |items| && items[i].job == j && !items[i].Resumes();
        if i < |front| { assert front[i] == items[i]; }
      }
      if last.job == j && !last.Resumes() { assert items[|items| - 1] == last; }
    }
  }

  lemma {:induction false} ParkedWait(parked: Parked, j: JobId)
    requires Runnable(ParkedKinds(parked, j))
    ensures exists a: Account :: Waits(ParkedOf(parked, a), j)
    decreases |parked|
  {
    var a :| a in parked && ParkedKinds(parked, j) == Kinds(parked[a], j) + ParkedKinds(parked - {a}, j);
    if Runnable(Kinds(parked[a], j)) {
      KindsWait(parked[a], j);
      assert ParkedOf(parked, a) == parked[a];
    } else {
      ParkedWait(parked - {a}, j);
      var b: Account :| Waits(ParkedOf(parked - {a}, b), j);
      assert b in parked && ParkedOf(parked, b) == ParkedOf(parked - {a}, b);
    }
  }

  // ---- the composed system ----

  datatype Event =
    | Taken(worker: nat, account: Account)
    | Work(event: RelayRuns.Event, added: seq<WorkerPool.Item>)

  predicate OfPool(a: Action) {
    a.Server? && (a.request.Dequeue? || a.request.SkipItem? || a.request.Supersede?)
  }

  /** The step of the protocol that taking the first item is; parking an item beside no older one is none. */
  function TakenStep(p: State, rows: Rows, w: nat, account: Account, concurrency: nat): Option<RelayRuns.Event>
    requires p.queue != []
  {
    var item := p.queue[0];
    match Decide(p, rows, item, account, concurrency)
    case Drop => Some(RelayRuns.Act(item.job, Server(SkipItem(item.kind))))
    case RunIt => Some(RelayRuns.Act(item.job, Server(Dequeue(item.kind, w))))
    case ParkIt =>
      match Place(ParkedOf(p.parked, account), item.job)
      case Some(older) => Some(RelayRuns.Act(item.job, Server(Supersede(older))))
      case None => None
  }

  ghost predicate Possible(c: World, e: Event, concurrency: nat) {
    match e
    case Taken(w, account) => c.pool.queue != [] && w !in c.pool.running
    case Work(e, added) =>
      && RelayRuns.Possible(c.relay, e) && (e.Act? ==> !OfPool(e.action))
      && (if e.Act? then Adds(c.relay.jobs[e.job], RelayRuns.Next(c.relay, e).jobs[e.job], e.job, added) else added == [])
  }

  /** The items are exactly what the step added to the job's items. */
  predicate Adds(s: Job, t: Job, j: JobId, added: seq<WorkerPool.Item>) {
    (forall i :: 0 <= i < |added| ==> added[i].job == j) && t.queue == s.queue + Kinds(added, j)
  }

  /** The tables after a step of a job: the worker's finally block if its thread ended, and the new items. */
  ghost function Reacts(p: State, s: Job, t: Job, added: seq<WorkerPool.Item>): State {
    var q :=
      if s.threads != map[] && t.threads == map[] then
        var w :| w in s.threads;
        if w in p.running then WorkerPool.Finish(p, w) else p
      else p;
    q.(queue := q.queue + added)
  }

  ghost function Next(c: World, e: Event, concurrency: nat): World
    requires Possible(c, e, concurrency)
  {
    match e
    case Taken(w, account) =>
      var step := TakenStep(c.pool, RowsOf(c.relay.jobs), w, account, concurrency);
      World(Take(c.pool, w, RowsOf(c.relay.jobs), account, concurrency),
            if step.Some? && RelayRuns.Possible(c.relay, step.value) then RelayRuns.Next(c.relay, step.value) else c.relay)
    case Work(e, added) =>
      var relay := RelayRuns.Next(c.relay, e);
      match e
      case Act(j, _) => World(Reacts(c.pool, c.relay.jobs[j], relay.jobs[j], added), relay)
      case PowerCut => World(EMPTY, relay)
      case Restart(_) => World(EMPTY, relay)
      case _ => World(c.pool, relay)
  }

  ghost predicate Execution(cs: seq<World>, es: seq<Event>, concurrency: nat) {
    && |cs| == |es| + 1
    && cs[0].pool == EMPTY && cs[0].relay.jobs == map[]
    && forall i :: 0 <= i < |es| ==> Possible(cs[i], es[i], concurrency) && cs[i + 1] == Next(cs[i], es[i], concurrency)
  }

  // ---- tables and protocol agree ----

  ghost predicate LinkedJob(p: State, jobs: Jobs, j: JobId) {
    if j in jobs then
      && Items(p, j) == jobs[j].queue && (j in p.active <==> jobs[j].active)
      && forall w :: w in jobs[j].threads <==> w in p.running && p.running[w].item.job == j
    else Items(p, j) == multiset{} && j !in p.active && forall w :: w in p.running ==> p.running[w].item.job != j
  }

  ghost predicate Linked(c: World) {
    forall j: JobId :: LinkedJob(c.pool, c.relay.jobs, j)
  }

  ghost predicate Sound(c: World, concurrency: nat) {
    WorkerPool.Inv(c.pool, concurrency) && RelayRuns.Healthy(c.relay) && Linked(c)
  }

  /** The first item belongs to a job whose protocol state still holds it. */
  lemma FirstItem(c: World)
    requires Linked(c) && c.pool.queue != []
    ensures var item := c.pool.queue[0]; item.job in c.relay.jobs && item.kind in c.relay.jobs[item.job].queue
  {
    var item := c.pool.queue[0];
    KindsFirst(c.pool.queue, item.job);
    assert LinkedJob(c.pool, c.relay.jobs, item.job);
    assert item.kind in Items(c.pool, item.job);
  }

  /** Whatever the loop decides, the protocol can do. */
  lemma TakenIsPossible(c: World, w: nat, account: Account, concurrency: nat)
    requires Sound(c, concurrency) && c.pool.queue != [] && w !in c.pool.running
    ensures var step := TakenStep(c.pool, RowsOf(c.relay.jobs), w, account, concurrency);
      step.Some? ==> RelayRuns.Possible(c.relay, step.value)
  {
    hide JobInvariants.Inv, Items, Kinds, Park, ServerEnabled, Decide, Place;
    var item, rows := c.pool.queue[0], RowsOf(c.relay.jobs);
    FirstItem(c);
    var s := c.relay.jobs[item.job];
    assert LinkedJob(c.pool, c.relay.jobs, item.job);
    assert !s.recovering by { QueueNotRecovering(s, item.kind, c.relay.remote); }
    DecisionsFollowProtocol(c.pool, rows, item, account, concurrency, s, w);
    if Decide(c.pool, rows, item, account, concurrency) == ParkIt {
      SupersedePossible(c, account, concurrency);
      assert ServerEnabled(s, Dequeue(item.kind, w));
      ParksStarting(c.pool, rows, item, account, concurrency, s, w);
    }
  }

  lemma QueueNotRecovering(s: Job, kind: JobProtocol.Item, remote: Remote)
    requires JobInvariants.Inv(s, remote) && kind in s.queue
    ensures !s.recovering
  {
  }

  /** An item is parked only in a state in which the protocol allows its older one to be superseded. */
  lemma ParksStarting(p: State, rows: Rows, item: WorkerPool.Item, account: Account, concurrency: nat, s: Job, w: nat)
    requires Decide(p, rows, item, account, concurrency) == ParkIt && ServerEnabled(s, Dequeue(item.kind, w))
    ensures !item.kind.ResumeItem? && s.row.status.Queued? && !s.active && !AwaitingAssignment(s.row)
    ensures forall older :: older in s.queue && !older.ResumeItem? && Runnable(s.queue - multiset{older}) ==> ServerEnabled(s, Supersede(older))
  {
    hide AwaitingAssignment, Runnable;
  }

  lemma SupersedePossible(c: World, account: Account, concurrency: nat)
    requires Sound(c, concurrency) && c.pool.queue != []
    ensures var item := c.pool.queue[0];
      var older := Place(ParkedOf(c.pool.parked, account), item.job);
      && item.job in c.relay.jobs
      && (older.Some? && !item.kind.ResumeItem? ==>
            var s := c.relay.jobs[item.job];
            older.value in s.queue && !older.value.ResumeItem? && Runnable(s.queue - multiset{older.value}))
  {
    hide RelayRuns.Healthy, Kinds, ParkedKinds, Park;
    FirstItem(c);
    var item, waiting := c.pool.queue[0], ParkedOf(c.pool.parked, account);
    var older := Place(waiting, item.job);
    assert LinkedJob(c.pool, c.relay.jobs, item.job);
    KindsFirst(c.pool.queue, item.job);
    ParkedWithout(c.pool.parked, account, item.job);
    ParkKinds(waiting, item, item.job);
    PlaceFound(waiting, item.job);
    if older.Some? {
      assert AccountOk(c.pool, account, concurrency);
      var i :| 0 <= i < |waiting| && waiting[i].kind == older.value;
      assert !waiting[i].Resumes();
      assert item.kind in c.relay.jobs[item.job].queue - multiset{older.value};
    }
  }

  // ---- taking keeps them in agreement ----

  /** What taking does to the items of one job. */
  lemma TakeItems(p: State, w: nat, rows: Rows, account: Account, concurrency: nat, j: JobId)
    requires p.queue != []
    ensures var item, t, older := p.queue[0], Take(p, w, rows, account, concurrency), Place(ParkedOf(p.parked, account), p.queue[0].job);
      if item.job != j then Items(t, j) == Items(p, j)
      else if Decide(p, rows, item, account, concurrency) != ParkIt then Items(p, j) == Items(t, j) + multiset{item.kind}
      else if older.Some? then Items(p, j) == Items(t, j) + multiset{older.value}
      else Items(t, j) == Items(p, j)
  {
    hide Kinds, ParkedKinds, Park, Decide, Place;
    var item := p.queue[0];
    if Decide(p, rows, item, account, concurrency) == ParkIt {
      ParkItems(p, account, j);
    } else {
      KindsFirst(p.queue, j);
    }
  }

  lemma ParkItems(p: State, account: Account, j: JobId)
    requires p.queue != []
    ensures var item, waiting := p.queue[0], ParkedOf(p.parked, account);
      var older, after := Place(waiting, item.job), Kinds(p.queue[1..], j) + ParkedKinds(p.parked[account := Park(waiting, item)], j);
      if item.job == j && older.Some? then Items(p, j) == after + multiset{older.value} else Items(p, j) == after
  {
    hide Kinds, ParkedKinds, Park, Place;
    var item, waiting := p.queue[0], ParkedOf(p.parked, account);
    KindsFirst(p.queue, j);
    ParkedWithout(p.parked, account, j);
    ParkedSet(p.parked, account, Park(waiting, item), j);
    ParkKinds(waiting, item, j);
    var older, rest := Place(waiting, item.job), ParkedKinds(p.parked - {account}, j);
    if item.job == j {
      if older.Some? { Replaced(item.kind, older.value, Kinds(p.queue[1..], j), Kinds(waiting, j), rest); }
      else { Moved(item.kind, Kinds(p.queue[1..], j), Kinds(waiting, j), rest); }
    }
  }

  lemma Replaced(x: JobProtocol.Item, y: JobProtocol.Item, queue: Bag, waiting: Bag, rest: Bag)
    requires y in waiting
    ensures (multiset{x} + queue) + (waiting + rest) == (queue + (waiting - multiset{y} + multiset{x} + rest)) + multiset{y}
  {
  }

  lemma Moved(x: JobProtocol.Item, queue: Bag, waiting: Bag, rest: Bag)
    ensures (multiset{x} + queue) + (waiting + rest) == queue + (waiting + multiset{x} + rest)
  {
  }

  lemma TakenLinked(c: World, w: nat, account: Account, concurrency: nat)
    requires Sound(c, concurrency) && Possible(c, Taken(w, account), concurrency)
    ensures Linked(Next(c, Taken(w, account), concurrency))
  {
    hide WorkerPool.Inv, RelayRuns.Healthy, Items, RelayRuns.Possible, RelayRuns.Next, Decide, Take, Place, LinkedJob, Enabled, Step;
    var d := Next(c, Taken(w, account), concurrency);
    forall j: JobId ensures LinkedJob(d.pool, d.relay.jobs, j) {
      assert LinkedJob(c.pool, c.relay.jobs, j);
      TakenIsPossible(c, w, account, concurrency);
      FirstItem(c);
      if j == c.pool.queue[0].job { OwnLinked(c, w, account, concurrency); } else { OtherLinked(c, w, account, concurrency, j); }
    }
  }

  lemma OtherLinked(c: World, w: nat, account: Account, concurrency: nat, j: JobId)
    requires Possible(c, Taken(w, account), concurrency) && LinkedJob(c.pool, c.relay.jobs, j) && j != c.pool.queue[0].job
    ensures var d := Next(c, Taken(w, account), concurrency); LinkedJob(d.pool, d.relay.jobs, j)
  {
    hide Items, RelayRuns.Possible, RelayRuns.Next, Decide, Take, Place;
    var rows := RowsOf(c.relay.jobs);
    TakeItems(c.pool, w, rows, account, concurrency, j);
    TakeTables(c.pool, w, rows, account, concurrency, j);
    var step := TakenStep(c.pool, rows, w, account, concurrency);
    if step.Some? && RelayRuns.Possible(c.relay, step.value) { ActOnOne(c.relay, step.value.job, step.value.action, j); }
  }

  lemma OwnLinked(c: World, w: nat, account: Account, concurrency: nat)
    requires Possible(c, Taken(w, account), concurrency) && LinkedJob(c.pool, c.relay.jobs, c.pool.queue[0].job)
    requires c.pool.queue[0].job in c.relay.jobs
    requires var step := TakenStep(c.pool, RowsOf(c.relay.jobs), w, account, concurrency); step.Some? ==> RelayRuns.Possible(c.relay, step.value)
    ensures var d := Next(c, Taken(w, account), concurrency); LinkedJob(d.pool, d.relay.jobs, c.pool.queue[0].job)
  {
    hide Items, RelayRuns.Possible, RelayRuns.Next, Decide, Take, Place, Enabled, Step, LinkedJob;
    var rows, j := RowsOf(c.relay.jobs), c.pool.queue[0].job;
    var step := TakenStep(c.pool, rows, w, account, concurrency);
    if step.Some? {
      var a := step.value.action;
      ActOnOne(c.relay, j, a, j);
      var item := TakenItem(a.request);
      assert c.relay.jobs[j].queue == Items(Take(c.pool, w, rows, account, concurrency), j) + multiset{item} by {
        TakeItems(c.pool, w, rows, account, concurrency, j);
        LinkedItems(c.pool, c.relay.jobs, j);
      }
      EffectLinked(c, w, account, concurrency, a);
    } else {
      TakeItems(c.pool, w, rows, account, concurrency, j);
      TakeTables(c.pool, w, rows, account, concurrency, j);
      ParkLinked(c.pool, Take(c.pool, w, rows, account, concurrency), c.relay.jobs, j);
    }
  }

  lemma LinkedItems(p: State, jobs: Jobs, j: JobId)
    requires j in jobs && LinkedJob(p, jobs, j)
    ensures Items(p, j) == jobs[j].queue
  {
    hide Items;
  }

  lemma ParkLinked(p: State, t: State, jobs: Jobs, j: JobId)
    requires LinkedJob(p, jobs, j) && Items(t, j) == Items(p, j) && (j in t.active <==> j in p.active)
    requires forall v :: v in t.running && t.running[v].item.job == j <==> v in p.running && p.running[v].item.job == j
    ensures LinkedJob(t, jobs, j)
  {
    hide Items;
  }

  function TakenItem(a: ServerAction): JobProtocol.Item
    requires a.Dequeue? || a.SkipItem? || a.Supersede?
  {
    match a
    case Dequeue(item, _) => item
    case SkipItem(item) => item
    case Supersede(item) => item
  }

  lemma EffectLinked(c: World, w: nat, account: Account, concurrency: nat, a: Action)
    requires c.pool.queue != [] && w !in c.pool.running
    requires var j := c.pool.queue[0].job; j in c.relay.jobs && LinkedJob(c.pool, c.relay.jobs, j)
    requires var j := c.pool.queue[0].job; OfPool(a) && Enabled(c.relay.jobs[j], a, c.relay.remote)
    requires TakenStep(c.pool, RowsOf(c.relay.jobs), w, account, concurrency) == Some(RelayRuns.Act(c.pool.queue[0].job, a))
    requires var j := c.pool.queue[0].job;
      c.relay.jobs[j].queue == Items(Take(c.pool, w, RowsOf(c.relay.jobs), account, concurrency), j) + multiset{TakenItem(a.request)}
    ensures var j := c.pool.queue[0].job;
      forall jobs: Jobs :: j in jobs && jobs[j] == Step(c.relay.jobs[j], a, c.relay.remote) ==>
        LinkedJob(Take(c.pool, w, RowsOf(c.relay.jobs), account, concurrency), jobs, j)
  {
    hide Items, Decide, Take, Place, Enabled, Step;
    var j, rows := c.pool.queue[0].job, RowsOf(c.relay.jobs);
    TakeTables(c.pool, w, rows, account, concurrency, j);
    TakenEffect(c.relay.jobs[j], a, c.relay.remote);
    Cancel(Items(Take(c.pool, w, rows, account, concurrency), j), TakenItem(a.request));
  }

  lemma Cancel(x: Bag, y: JobProtocol.Item)
    ensures x + multiset{y} - multiset{y} == x
  {
  }

  /** Only the tables of the job that is run change, and only when it is run. */
  lemma TakeTables(p: State, w: nat, rows: Rows, account: Account, concurrency: nat, j: JobId)
    requires p.queue != [] && w !in p.running
    ensures var t, runs := Take(p, w, rows, account, concurrency), p.queue[0].job == j && Decide(p, rows, p.queue[0], account, concurrency) == RunIt;
      && (j in t.active <==> j in p.active || runs)
      && forall v :: v in t.running && t.running[v].item.job == j <==> (v in p.running && p.running[v].item.job == j) || (runs && v == w)
  {
    hide Decide, Park;
  }

  lemma ActOnOne(r: RelayRuns.World, k: JobId, a: Action, j: JobId)
    requires RelayRuns.Possible(r, RelayRuns.Act(k, a))
    ensures k in r.jobs && Enabled(r.jobs[k], a, r.remote)
    ensures var r' := RelayRuns.Next(r, RelayRuns.Act(k, a));
      && r'.jobs.Keys == r.jobs.Keys && r'.remote == r.remote
      && (j in r.jobs && j != k ==> r'.jobs[j] == r.jobs[j])
      && r'.jobs[k] == Step(r.jobs[k], a, r.remote)
  {
    hide Enabled, Step;
  }

  lemma TakenEffect(s: Job, a: Action, remote: Remote)
    requires Enabled(s, a, remote) && OfPool(a)
    ensures var t := Step(s, a, remote);
      && t.queue == s.queue - multiset{TakenItem(a.request)}
      && t.active == (s.active || a.request.Dequeue?)
      && t.threads.Keys == if a.request.Dequeue? then s.threads.Keys + {a.request.thread} else s.threads.Keys
  {
    hide ServerStep, ServerEnabled;
    match a.request {
      case Dequeue(item, k) => DequeueEffect(s, item, k);
      case SkipItem(item) => DropEffect(s, a.request);
      case Supersede(item) => DropEffect(s, a.request);
    }
  }

  lemma DequeueEffect(s: Job, item: JobProtocol.Item, k: nat)
    requires ServerEnabled(s, Dequeue(item, k))
    ensures var t := ServerStep(s, Dequeue(item, k));
      t.queue == s.queue - multiset{item} && t.active && t.threads.Keys == s.threads.Keys + {k}
  {
    hide ServerEnabled;
  }

  lemma DropEffect(s: Job, a: ServerAction)
    requires ServerEnabled(s, a) && (a.SkipItem? || a.Supersede?)
    ensures ServerStep(s, a) == s.(queue := s.queue - multiset{TakenItem(a)})
  {
    hide ServerEnabled;
  }

  // ---- so does every other step ----

  /** Nothing but the pool takes items away: a step adds one item or none, and starts no worker. */
  ghost predicate Ordinary(s: Job, t: Job) {
    && (t.threads.Keys == s.threads.Keys || t.threads == map[])
    && (t.queue == s.queue || exists item: JobProtocol.Item :: t.queue == s.queue + multiset{item})
  }

  predicate Same(s: Job, t: Job) {
    t.threads.Keys == s.threads.Keys && t.queue == s.queue
  }

  lemma StepWorkers(s: Job, a: Action, remote: Remote)
    requires Enabled(s, a, remote) && !OfPool(a) && !a.Crash? && forall k, q :: k in s.threads && q in s.threads ==> k == q
    ensures Ordinary(s, Step(s, a, remote))
  {
    hide RunStep, MonitorStep, ErrorStep, ChildStep, IntakeStep, ServerStep, CrashStep, RecoverStep, Ordinary;
    match a {
      case Run(k, r) => RunWorkers(s, k, r, remote);
      case Monitor(k, m) => MonitorWorkers(s, k, m);
      case Err(k, e) => ErrorWorkers(s, k, e);
      case Upload(c, u) => ChildWorkers(s, c, u);
      case Intake(i) => IntakeWorkers(s, i);
      case Server(r) => ServerWorkers(s, r);
      case Recover(o) => RecoverWorkers(s, o);
    }
  }

  lemma TransitionWorkers(s: Job, k: nat, expected: set<Status>, status: Status, progress: int, next: Pc)
    requires k in s.threads
    ensures Same(s, Transition(s, k, expected, status, progress, next))
  {
    hide Matches, CancelSeen, UpdateJob, At;
    if Matches(s.row, expected, true) {
      AtWorkers(s.(row := UpdateJob(s.row, Update(status := Some(status), progress := Some(progress)))), k, next);
    } else {
      AtWorkers(s, k, if CancelSeen(s.row) then CancelWrite else Raised);
    }
  }

  lemma AtWorkers(s: Job, k: nat, pc: Pc)
    requires k in s.threads
    ensures Same(s, At(s, k, pc))
  {
  }

  lemma RunWorkers(s: Job, k: nat, a: RunAction, remote: Remote)
    requires k in s.threads && RunEnabled(s, k, a, remote)
    ensures Ordinary(s, RunStep(s, k, a, remote))
  {
    hide RunEnabled, CacheStep, UploadStep, SubmitStep, Ordinary;
    if CachePath(a) { CacheWorkers(s, k, a, remote); }
    else if UploadPath(a) { UploadWorkers(s, k, a, remote); }
    else { SubmitWorkers(s, k, a, remote); }
    Kept(s, RunStep(s, k, a, remote));
  }

  lemma CacheWorkers(s: Job, k: nat, a: RunAction, remote: Remote)
    requires k in s.threads && RunEnabled(s, k, a, remote) && CachePath(a)
    ensures Same(s, CacheStep(s, k, a, remote))
  {
    hide Serves, UpdateJob, Pinned, Rewritten, AcquirePc, CancelSeen, Get;
  }

  lemma UploadWorkers(s: Job, k: nat, a: RunAction, remote: Remote)
    requires k in s.threads && RunEnabled(s, k, a, remote) && UploadPath(a)
    ensures Same(s, UploadStep(s, k, a, remote))
  {
    hide Transition, Serves;
    var pc := s.threads[k].pc;
    match a {
      case Prepare =>
        if pc.saved.Some? { TransitionWorkers(s, k, {Queued}, WaitingDataset, 35, Verify(pc.saved.value)); }
        else { TransitionWorkers(s, k, {Queued, UploadingDataset, WaitingDataset}, UploadingDataset, 20, Uploading); }
      case AfterUpload => TransitionWorkers(s, k, {UploadingDataset}, WaitingDataset, 35, Verify(pc.receipt));
      case _ =>
    }
  }

  lemma SubmitWorkers(s: Job, k: nat, a: RunAction, remote: Remote)
    requires k in s.threads && RunEnabled(s, k, a, remote) && SubmitPath(a)
    ensures Same(s, SubmitStep(s, k, a, remote))
  {
    hide Serves, UpdateJob, Transition, CancelSeen, Get, PinStep;
    var pc := s.threads[k].pc;
    match a {
      case Submit => TransitionWorkers(s, k, {Queued, WaitingDataset}, PushingKernel, 45, Push(pc.receipt));
      case PinVersion => PinWorkers(s, k, pc.receipt);
      case _ =>
    }
  }

  lemma Kept(s: Job, t: Job)
    requires Same(s, t)
    ensures Ordinary(s, t)
  {
  }

  lemma PinWorkers(s: Job, k: nat, r: Receipt)
    requires k in s.threads
    ensures Same(s, PinStep(s, k, r))
  {
    hide Pinned, CancelSeen, At;
    if CancelSeen(s.row) {
      AtWorkers(s, k, CancelWrite);
    } else {
      AtWorkers(s.(sources := Pinned(s.sources, s.row.datasetRef, r.version)), k, Ready(r));
    }
  }

  lemma MonitorWorkers(s: Job, k: nat, a: MonitorAction)
    requires k in s.threads && MonitorEnabled(s.threads[k], a) && forall q :: q in s.threads ==> q == k
    ensures Ordinary(s, MonitorStep(s, k, a))
  {
    hide UpdateJob, Finalize, Max, LostRow, ReadRowStep, WriteRowStep;
    match a {
      case ReadRow(target, floor) => ReadWorkers(s, k, target, floor);
      case WriteRow => WriteWorkers(s, k);
      case RecordOutput => Kept(s, MonitorStep(s, k, a));
      case Deliver => Ended(s, MonitorStep(s, k, a), k);
      case LoseMonitor => Ended(s, MonitorStep(s, k, a), k);
    }
  }

  lemma Ended(s: Job, t: Job, k: nat)
    requires t.threads == s.threads - {k} && t.queue == s.queue && forall q :: q in s.threads ==> q == k
    ensures Ordinary(s, t)
  {
  }

  lemma ReadWorkers(s: Job, k: nat, target: Status, floor: int)
    requires k in s.threads && s.threads[k].pc.Finish?
    ensures Same(s, ReadRowStep(s, k, target, floor))
  {
    hide CancelSeen, Max, At, Terminal;
    if Terminal(s.row.status) { OnlyMoved(s, s, k, ReadRowStep(s, k, target, floor)); } else { OnlyMoved(s, s, k, ReadRowStep(s, k, target, floor)); }
  }

  lemma WriteWorkers(s: Job, k: nat)
    requires k in s.threads && s.threads[k].pc.FinishWrite?
    ensures Same(s, WriteRowStep(s, k))
  {
    hide MonitoredRow, At;
    var pc := s.threads[k].pc;
    if s.row.status == pc.seen {
      OnlyMoved(s, s.(row := MonitoredRow(s.row, pc)), k, WriteRowStep(s, k));
    } else {
      OnlyMoved(s, s, k, WriteRowStep(s, k));
    }
  }

  lemma OnlyMoved(s: Job, u: Job, k: nat, t: Job)
    requires k in u.threads && u.threads == s.threads && u.queue == s.queue && exists pc :: t == At(u, k, pc)
    ensures Same(s, t)
  {
  }

  lemma ErrorWorkers(s: Job, k: nat, a: ErrorAction)
    requires k in s.threads && ErrorEnabled(s, k, a) && forall q :: q in s.threads ==> q == k
    ensures Ordinary(s, ErrorStep(s, k, a))
  {
    hide UpdateJob, Finalize, UpdateIfStatus, CancelSeen, Get;
  }

  lemma ChildWorkers(s: Job, c: nat, a: ChildAction)
    requires c in s.children && ChildEnabled(s, c, a)
    ensures Ordinary(s, ChildStep(s, c, a))
  {
  }

  lemma IntakeWorkers(s: Job, a: IntakeAction)
    requires IntakeEnabled(s, a)
    ensures Ordinary(s, IntakeStep(s, a))
  {
    hide UpdateJob, UpdateIfStatus, Deduct, RewriteOwner, Matches, AwaitingAssignment;
  }

  lemma ServerWorkers(s: Job, a: ServerAction)
    requires ServerEnabled(s, a) && !a.Dequeue? && !a.SkipItem? && !a.Supersede?
    ensures Ordinary(s, ServerStep(s, a))
  {
    hide UpdateJob, UpdateIfStatus, Requeue, CancelUpdate, ServerEnabled;
    match a {
      case ManualRecheck(_) => RequeueGrows(s);
      case ClaimRecheck => RequeueGrows(s);
      case _ =>
    }
  }

  lemma RequeueGrows(s: Job)
    ensures Ordinary(s, Requeue(s))
  {
    hide UpdateJob, Matches;
  }

  lemma RecoverWorkers(s: Job, o: Observed)
    requires s.recovering
    ensures Ordinary(s, RecoverStep(s, o))
  {
    hide Ordinary, RecoverFail, RecoverEnqueue, RecoverCandidate, RecoverCancel, RecoverAssembly, RunItem;
    var u, t := s.(recovering := false), RecoverStep(s, o);
    assert Grown(s, u) by { Unchanged(s, u); }
    match s.row.status {
      case Queued => EnqueueGrows(u, RunItem(s.row));
      case WaitingKernel => EnqueueGrows(u, ResumeItem(Complete));
      case DownloadingOutput => EnqueueGrows(u, ResumeItem(Complete));
      case CancelRequested => CancelGrows(u, o);
      case PushingKernel => EnqueueGrows(u, ResumeItem(Complete)); Unchanged(u, RecoverFail(u));
      case UploadingDataset => CandidateGrows(u, o);
      case WaitingDataset => CandidateGrows(u, o);
      case Assembling => AssemblyGrows(u, o);
      case _ =>
    }
    assert Grown(u, t) by { if t == u { Unchanged(u, t); } }
    GrownOrdinary(s, t);
  }

  ghost predicate Grown(s: Job, t: Job) {
    t.threads == s.threads && (t.queue == s.queue || exists item: JobProtocol.Item :: t.queue == s.queue + multiset{item})
  }

  lemma Unchanged(s: Job, t: Job)
    requires t.threads == s.threads && t.queue == s.queue
    ensures Grown(s, t)
  {
  }

  lemma GrownOrdinary(s: Job, t: Job)
    requires Grown(s.(recovering := false), t)
    ensures Ordinary(s, t)
  {
  }

  lemma EnqueueGrows(s: Job, item: JobProtocol.Item)
    ensures Grown(s, RecoverEnqueue(s, item))
  {
    hide AwaitingAssignment;
  }

  lemma CancelGrows(s: Job, o: Observed)
    ensures Grown(s, RecoverCancel(s, o))
  {
    hide UpdateJob, RecoverEnqueue, RecoverFail;
    EnqueueGrows(s, ResumeItem(Canceled));
  }

  lemma CandidateGrows(s: Job, o: Observed)
    ensures Grown(s, RecoverCandidate(s, o))
  {
    hide UpdateJob, RecoverEnqueue, RecoverFail, Matches, Get, RunItem;
    EnqueueGrows(s.(row := UpdateJob(s.row, Update(status := Some(Queued), error := Some(NoError)))), RunItem(s.row));
  }

  lemma AssemblyGrows(s: Job, o: Observed)
    ensures Grown(s, RecoverAssembly(s, o))
  {
    hide UpdateJob, RecoverEnqueue, RecoverFail;
    EnqueueGrows(s.(row := UpdateJob(s.row, Update(status := Some(Queued), progress := Some(15), error := Some(NoError), reserved := Some(o.reserved))),
                    local := o.content, sources := o.metadata), ProcessItem);
  }

  /** So every step that a job can take outside the pool is a step of the composed system, with the items it adds. */
  lemma WorkIsPossible(c: World, j: JobId, a: Action, concurrency: nat)
    requires Sound(c, concurrency) && RelayRuns.Possible(c.relay, RelayRuns.Act(j, a)) && !OfPool(a)
    ensures exists added :: Possible(c, Work(RelayRuns.Act(j, a), added), concurrency)
  {
    hide WorkerPool.Inv, JobInvariants.Inv, Linked, RelayRuns.Possible, RelayRuns.Next, Step, Enabled, OfPool, Kinds;
    ActOnOne(c.relay, j, a, j);
    NotCrash(c.relay, j, a);
    var s, t := c.relay.jobs[j], Step(c.relay.jobs[j], a, c.relay.remote);
    Workers(s, c.relay.remote);
    StepWorkers(s, a, c.relay.remote);
    var added: seq<WorkerPool.Item> := [];
    NoKinds(j);
    if t.queue != s.queue {
      var item: JobProtocol.Item :| t.queue == s.queue + multiset{item};
      added := [WorkerPool.Item(j, item)];
      KindsFirst(added, j);
      assert added[1..] == [];
      assert multiset{item} + multiset{} == multiset{item};
    }
    assert Adds(s, t, j, added);
    assert Possible(c, Work(RelayRuns.Act(j, a), added), concurrency);
  }

  lemma {:induction false} OnlyOwn(added: seq<WorkerPool.Item>, j: JobId, i: JobId)
    requires (forall k :: 0 <= k < |added| ==> added[k].job == j) && i != j
    ensures Kinds(added, i) == multiset{}
  {
    if added != [] { OnlyOwn(added[..|added| - 1], j, i); }
  }

  lemma AppendItems(p: State, added: seq<WorkerPool.Item>, j: JobId)
    ensures Items(p.(queue := p.queue + added), j) == Items(p, j) + Kinds(added, j)
  {
    KindsConcat(p.queue, added, j);
  }

  /** The finally block moves items but loses and adds none. */
  lemma FinishItems(p: State, w: nat, j: JobId)
    requires w in p.running
    ensures Items(WorkerPool.Finish(p, w), j) == Items(p, j)
  {
    var a := p.running[w].account;
    ParkedWithout(p.parked, a, j);
    KindsConcat(p.queue, ParkedOf(p.parked, a), j);
  }

  lemma Workers(s: Job, remote: Remote)
    requires JobInvariants.Inv(s, remote)
    ensures forall k, q :: k in s.threads && q in s.threads ==> k == q
    ensures s.active <==> s.threads != map[]
  {
  }

  lemma ReactsLinked(c: World, j: JobId, a: Action, added: seq<WorkerPool.Item>, concurrency: nat)
    requires Sound(c, concurrency) && Possible(c, Work(RelayRuns.Act(j, a), added), concurrency)
    ensures var d := Next(c, Work(RelayRuns.Act(j, a), added), concurrency); WorkerPool.Inv(d.pool, concurrency) && Linked(d)
  {
    hide WorkerPool.Inv, JobInvariants.Inv, Items, RelayRuns.Possible, RelayRuns.Next, Step, Enabled, OfPool, Kinds;
    var e := RelayRuns.Act(j, a);
    ActOnOne(c.relay, j, a, j);
    RelayRuns.NextHealthy(c.relay, e);
    var relay := RelayRuns.Next(c.relay, e);
    var s, t := c.relay.jobs[j], relay.jobs[j];
    Workers(s, c.relay.remote);
    Workers(t, c.relay.remote);
    assert LinkedJob(c.pool, c.relay.jobs, j);
    NotCrash(c.relay, j, a);
    StepWorkers(s, a, c.relay.remote);
    if s.threads != map[] && t.threads == map[] {
      var w :| w in s.threads;
      FinishInv(c.pool, w, concurrency);
      AppendInv(WorkerPool.Finish(c.pool, w), added, concurrency);
      forall i: JobId ensures LinkedJob(WorkerPool.Finish(c.pool, w).(queue := WorkerPool.Finish(c.pool, w).queue + added), relay.jobs, i) {
        assert LinkedJob(c.pool, c.relay.jobs, i);
        ActOnOne(c.relay, j, a, i);
        LeftLinked(c.pool, w, c.relay.jobs, relay.jobs, j, added, i);
      }
    } else {
      AppendInv(c.pool, added, concurrency);
      forall i: JobId ensures LinkedJob(c.pool.(queue := c.pool.queue + added), relay.jobs, i) {
        assert LinkedJob(c.pool, c.relay.jobs, i);
        ActOnOne(c.relay, j, a, i);
        StayLinked(c.pool, c.relay.jobs, relay.jobs, j, added, i);
      }
    }
  }

  lemma LeftLinked(p: State, w: nat, jobs: Jobs, after: Jobs, j: JobId, added: seq<WorkerPool.Item>, i: JobId)
    requires w in p.running && p.running[w].item.job == j && j in jobs && after.Keys == jobs.Keys
    requires LinkedJob(p, jobs, i) && LinkedJob(p, jobs, j) && (i in jobs && i != j ==> after[i] == jobs[i])
    requires forall v :: v in jobs[j].threads ==> v == w
    requires Adds(jobs[j], after[j], j, added) && after[j].threads == map[] && !after[j].active
    ensures LinkedJob(WorkerPool.Finish(p, w).(queue := WorkerPool.Finish(p, w).queue + added), after, i)
  {
    hide Items, Kinds;
    FinishItems(p, w, i);
    AppendItems(WorkerPool.Finish(p, w), added, i);
    if i != j { OnlyOwn(added, j, i); }
  }

  lemma StayLinked(p: State, jobs: Jobs, after: Jobs, j: JobId, added: seq<WorkerPool.Item>, i: JobId)
    requires j in jobs && after.Keys == jobs.Keys && LinkedJob(p, jobs, i) && (i in jobs && i != j ==> after[i] == jobs[i])
    requires Adds(jobs[j], after[j], j, added) && after[j].threads.Keys == jobs[j].threads.Keys && after[j].active == jobs[j].active
    ensures LinkedJob(p.(queue := p.queue + added), after, i)
  {
    hide Items, Kinds;
    AppendItems(p, added, i);
    if i != j { OnlyOwn(added, j, i); }
  }

  lemma NotCrash(r: RelayRuns.World, j: JobId, a: Action)
    requires RelayRuns.Possible(r, RelayRuns.Act(j, a))
    ensures !a.Crash?
  {
    hide Enabled;
  }

  lemma OthersLinked(c: World, e: RelayRuns.Event, concurrency: nat)
    requires Sound(c, concurrency) && Possible(c, Work(e, []), concurrency) && !e.Act?
    ensures var d := Next(c, Work(e, []), concurrency); WorkerPool.Inv(d.pool, concurrency) && Linked(d)
  {
    hide WorkerPool.Inv, JobInvariants.Inv, Step, Enabled;
    EmptyPool(concurrency);
    var d := Next(c, Work(e, []), concurrency);
    forall i: JobId ensures LinkedJob(d.pool, d.relay.jobs, i) {
      assert LinkedJob(c.pool, c.relay.jobs, i);
    }
  }

  lemma NextSound(c: World, e: Event, concurrency: nat)
    requires Sound(c, concurrency) && Possible(c, e, concurrency)
    ensures Sound(Next(c, e, concurrency), concurrency)
  {
    hide WorkerPool.Inv, RelayRuns.Healthy, Linked, Decide, RelayRuns.Possible, RelayRuns.Next, Adds, Reacts;
    match e {
      case Taken(w, account) =>
        TakeInv(c.pool, w, RowsOf(c.relay.jobs), account, concurrency);
        TakenIsPossible(c, w, account, concurrency);
        TakenLinked(c, w, account, concurrency);
        var step := TakenStep(c.pool, RowsOf(c.relay.jobs), w, account, concurrency);
        if step.Some? { RelayRuns.NextHealthy(c.relay, step.value); }
      case Work(r, added) =>
        RelayRuns.NextHealthy(c.relay, r);
        if r.Act? { ReactsLinked(c, r.job, r.action, added, concurrency); } else { OthersLinked(c, r, concurrency); }
    }
  }

  // ---- whole runs ----

  /** In every run the loop's tables and the jobs agree: exact account counters, starters within the limit, nobody parked
      beside a free slot, one worker per job, and every item, parked or queued, is one the job's protocol state holds.
      Every decision of the loop is a step the protocol allows. */
  lemma {:induction false} AlwaysInOrder(cs: seq<World>, es: seq<Event>, concurrency: nat, i: nat)
    requires Execution(cs, es, concurrency) && i < |cs|
    ensures Sound(cs[i], concurrency)
    ensures i < |es| && es[i].Taken? ==>
              var step := TakenStep(cs[i].pool, RowsOf(cs[i].relay.jobs), es[i].worker, es[i].account, concurrency);
              step.Some? ==> RelayRuns.Possible(cs[i].relay, step.value)
  {
    hide Sound, Next, TakenStep, RelayRuns.Possible, Adds;
    if i == 0 {
      StartsSound(cs[0], concurrency);
    } else {
      AlwaysInOrder(cs, es, concurrency, i - 1);
      NextSound(cs[i - 1], es[i - 1], concurrency);
    }
    if i < |es| && es[i].Taken? { TakenIsPossible(cs[i], es[i].worker, es[i].account, concurrency); }
  }

  lemma StartsSound(c: World, concurrency: nat)
    requires c.pool == EMPTY && c.relay.jobs == map[]
    ensures Sound(c, concurrency)
  {
    hide WorkerPool.Inv;
    EmptyPool(concurrency);
  }

  ghost predicate Carries(c: World) {
    forall j :: j in c.relay.jobs ==> QueuedWork.Carried(c.relay.jobs[j]) && QueuedWork.NoneLeaving(c.relay.jobs[j])
  }

  /** No worker is interrupted, and manual rechecks only reach inactive jobs. */
  predicate Calm(c: World, e: Event) {
    e.Work? && e.event.Act? && e.event.job in c.relay.jobs ==> QueuedWork.Calm(c.relay.jobs[e.event.job], e.event.action)
  }

  lemma NextCarries(c: World, e: Event, concurrency: nat)
    requires Sound(c, concurrency) && Possible(c, e, concurrency) && Carries(c) && Calm(c, e)
    ensures Carries(Next(c, e, concurrency))
  {
    hide WorkerPool.Inv, RelayRuns.Healthy, Linked, RelayRuns.Possible, RelayRuns.Next, QueuedWork.Carried, QueuedWork.NoneLeaving, Adds, Reacts, Decide;
    var d := Next(c, e, concurrency);
    match e {
      case Taken(w, account) =>
        TakenIsPossible(c, w, account, concurrency);
        var step := TakenStep(c.pool, RowsOf(c.relay.jobs), w, account, concurrency);
        if step.Some? {
          forall j | j in d.relay.jobs ensures QueuedWork.Carried(d.relay.jobs[j]) && QueuedWork.NoneLeaving(d.relay.jobs[j]) {
            QueuedWork.NextCarried(c.relay, step.value, j);
          }
        }
      case Work(r, added) =>
        forall j | j in d.relay.jobs ensures QueuedWork.Carried(d.relay.jobs[j]) && QueuedWork.NoneLeaving(d.relay.jobs[j]) {
          QueuedWork.NextCarried(c.relay, r, j);
        }
    }
  }

  lemma {:induction false} AlwaysCarries(cs: seq<World>, es: seq<Event>, concurrency: nat, i: nat)
    requires Execution(cs, es, concurrency) && i < |cs| && forall k :: 0 <= k < |es| ==> Calm(cs[k], es[k])
    ensures Carries(cs[i])
  {
    hide Sound, Next, Possible, Calm, Carries;
    if i == 0 {
      assert Carries(cs[0]) by { NothingCarries(cs[0]); }
    } else {
      AlwaysCarries(cs, es, concurrency, i - 1);
      AlwaysInOrder(cs, es, concurrency, i - 1);
      NextCarries(cs[i - 1], es[i - 1], concurrency);
    }
  }

  lemma NothingCarries(c: World)
    requires c.relay.jobs == map[]
    ensures Carries(c)
  {
  }

  /** In every run in which no worker is interrupted and manual rechecks only reach inactive jobs: every bound queued job
      that recovery has looked at is in the queue, parked or running, across crashes and restarts; and if it is only
      parked, its account is at its limit. */
  lemma NoneStranded(cs: seq<World>, es: seq<Event>, concurrency: nat, i: nat, j: JobId)
    requires Execution(cs, es, concurrency) && i < |cs| && forall k :: 0 <= k < |es| ==> Calm(cs[k], es[k])
    requires j in cs[i].relay.jobs && !cs[i].relay.jobs[j].recovering
    requires cs[i].relay.jobs[j].row.status.Queued? && !AwaitingAssignment(cs[i].relay.jobs[j].row)
    ensures Held(cs[i].pool, j)
    ensures !Waits(cs[i].pool.queue, j) && j !in cs[i].pool.active ==>
              exists a: Account :: Waits(ParkedOf(cs[i].pool.parked, a), j) && Count(cs[i].pool.counts, a) >= concurrency
  {
    hide Next, Possible, Calm, Items, RelayRuns.Healthy, Waits, AwaitingAssignment;
    AlwaysInOrder(cs, es, concurrency, i);
    AlwaysCarries(cs, es, concurrency, i);
    var p, s := cs[i].pool, cs[i].relay.jobs[j];
    assert LinkedJob(p, cs[i].relay.jobs, j);
    if s.threads != map[] {
      var w :| w in s.threads;
      assert w in p.running && p.running[w].item.job == j;
      assert j in p.active;
    } else {
      CarriedRunnable(s);
      RunnableHeld(p, j, concurrency);
    }
  }

  lemma CarriedRunnable(s: Job)
    requires QueuedWork.Carried(s) && s.threads == map[] && !s.recovering && s.row.status.Queued? && !AwaitingAssignment(s.row)
    ensures Runnable(s.queue)
  {
  }

  lemma RunnableHeld(p: State, j: JobId, concurrency: nat)
    requires Runnable(Items(p, j)) && WorkerPool.Inv(p, concurrency)
    ensures Waits(p.queue, j) || exists a: Account :: Waits(ParkedOf(p.parked, a), j) && Count(p.counts, a) >= concurrency
  {
    hide Waits, Kinds, ParkedKinds;
    KindsWait(p.queue, j);
    if !Waits(p.queue, j) {
      ParkedWait(p.parked, j);
      var a: Account :| Waits(ParkedOf(p.parked, a), j);
      assert AccountOk(p, a, concurrency);
      WaitsSome(ParkedOf(p.parked, a), j);
    }
  }

  lemma WaitsSome(items: seq<WorkerPool.Item>, j: JobId)
    requires Waits(items, j)
    ensures items != []
  {
  }
}
