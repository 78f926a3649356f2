/** The worker loop's shared tables: the queue, the active jobs, the per-account counters and the parked items.
    Between two awaits a worker runs alone, so taking an item and finishing it are single steps. */
module WorkerPool {
  import opened Basics
  import opened Database
  import JobProtocol

  type Account = string
  type Kind = JobProtocol.Item

  datatype Item = Item(job: JobId, kind: Kind) {
    predicate Resumes() { kind.ResumeItem? }
  }

  /** What a worker coroutine holds while it runs an item. */
  datatype Run = Run(item: Item, account: Account)

  /** What the loop reads from the job row. */
  datatype View = View(status: Status, awaiting: bool)
  type Rows = map<JobId, View>

  datatype State = State(
    queue: seq<Item>,
    active: set<JobId>,
    counts: map<Account, int>,
    parked: map<Account, seq<Item>>,   // insertion-ordered, one item per job
    running: map<nat, Run>)            // by worker index

  function Count(counts: map<Account, int>, a: Account): int {
    if a in counts then counts[a] else 0
  }

  function ParkedOf(parked: map<Account, seq<Item>>, a: Account): seq<Item> {
    if a in parked then parked[a] else []
  }

  /** dict[job] = item: a job already parked keeps its place and takes the newer item. */
  function Park(waiting: seq<Item>, item: Item): seq<Item> {
    if waiting == [] then [item]
    else if waiting[0].job == item.job then [item] + waiting[1..]
    else [waiting[0]] + Park(waiting[1..], item)
  }

  datatype Decision = Drop | ParkIt | RunIt

  function Decide(p: State, rows: Rows, item: Item, account: Account, concurrency: nat): Decision {
    if item.job !in rows || rows[item.job].status !in JobProtocol.ExpectedStatuses(item.kind) then Drop
    else if item.job in p.active then Drop
    else if rows[item.job].awaiting then Drop
    else if !item.Resumes() && Count(p.counts, account) >= concurrency then ParkIt
    else RunIt
  }

  function Take(p: State, w: nat, rows: Rows, account: Account, concurrency: nat): State
    requires p.queue != []
  {
    var item, rest := p.queue[0], p.queue[1..];
    match Decide(p, rows, item, account, concurrency)
    case Drop => p.(queue := rest)
    case ParkIt => p.(queue := rest, parked := p.parked[account := Park(ParkedOf(p.parked, account), item)])
    case RunIt =>
      p.(queue := rest, active := p.active + {item.job}, counts := p.counts[account := Count(p.counts, account) + 1],
         running := p.running[w := Run(item, account)])
  }

  function Finish(p: State, w: nat): State
    requires w in p.running
  {
    var r := p.running[w];
    p.(active := p.active - {r.item.job}, counts := p.counts[r.account := Count(p.counts, r.account) - 1],
       queue := p.queue + ParkedOf(p.parked, r.account), parked := p.parked - {r.account}, running := p.running - {w})
  }

  /** The job is where the item expects it: queued and bound for a first or repeated run, in one of the four monitored
      statuses for a resumed one. */
  predicate Startable(rows: Rows, item: Item) {
    && item.job in rows && !rows[item.job].awaiting
    && (item.Resumes() ==> rows[item.job].status in {PushingKernel, WaitingKernel, DownloadingOutput, CancelRequested})
    && (!item.Resumes() ==> rows[item.job].status == Queued)
  }

  class Pool {
    const concurrency: nat
    var queue: seq<Item>
    var active: set<JobId>
    var counts: map<Account, int>
    var parked: map<Account, seq<Item>>
    var running: map<nat, Run>

    function Now(): State
      reads this
    {
      State(queue, active, counts, parked, running)
    }

    constructor (n: nat)
      requires n > 0
      ensures Now() == State([], {}, map[], map[], map[]) && concurrency == n
    {
      concurrency := n;
      queue, active, counts, parked, running := [], {}, map[], map[], map[];
    }

    method Enqueue(item: Item)
      modifies this
      ensures Now() == old(Now()).(queue := old(queue) + [item])
    {
      queue := queue + [item];
    }

    /** One turn of an idle worker up to the point where the item runs, waits or is dropped. */
    method TakeItem(w: nat, rows: Rows, account: Account) returns (runs: bool)
      requires queue != [] && w !in running
      modifies this
      ensures Now() == Take(old(Now()), w, rows, account, concurrency)
      ensures queue == old(queue)[1..]
      ensures var item, here := old(queue)[0], Count(old(counts), account);
        var due := Startable(rows, item) && item.job !in old(active);
        var waits := due && !item.Resumes() && here >= concurrency;
        && (runs <==> due && !waits)
        && (runs ==> active == old(active) + {item.job} && counts == old(counts)[account := here + 1] && running == old(running)[w := Run(item, account)])
        && (!runs ==> active == old(active) && counts == old(counts) && running == old(running))
        && (!waits ==> parked == old(parked))
        && (waits ==> parked - {account} == old(parked) - {account} && item in ParkedOf(parked, account)
                      && forall i: Item :: i.job != item.job ==> (i in ParkedOf(parked, account) <==> i in ParkedOf(old(parked), account)))
    {
      ParkKeeps(ParkedOf(parked, account), queue[0]);
      var item := queue[0];
      queue := queue[1..];
      runs := false;
      if item.job !in rows || rows[item.job].status !in JobProtocol.ExpectedStatuses(item.kind) {
        return;
      }
      if item.job in active || rows[item.job].awaiting {
        return;
      }
      var here := Count(counts, account);
      if !item.Resumes() && here >= concurrency {
        parked := parked[account := Park(ParkedOf(parked, account), item)];
        return;
      }
      active := active + {item.job};
      counts := counts[account := here + 1];
      running := running[w := Run(item, account)];
      runs := true;
    }

    /** The worker's finally block: every item parked under the account goes back to the queue. */
    method FinishItem(w: nat)
      requires w in running
      modifies this
      ensures Now() == Finish(old(Now()), w)
      ensures var r := old(running)[w];
        && running == old(running) - {w} && active == old(active) - {r.item.job}
        && counts == old(counts)[r.account := Count(old(counts), r.account) - 1]
        && queue == old(queue) + ParkedOf(old(parked), r.account) && parked == old(parked) - {r.account}
    {
      var r := running[w];
      running := running - {w};
      active := active - {r.item.job};
      counts := counts[r.account := Count(counts, r.account) - 1];
      var waiting := ParkedOf(parked, r.account);
      parked := parked - {r.account};
      for i := 0 to |waiting|
        invariant queue == old(queue) + waiting[..i]
        invariant active == old(active) - {r.item.job} && running == old(running) - {w} && parked == old(parked) - {r.account}
        invariant counts == old(counts)[r.account := Count(old(counts), r.account) - 1]
      {
        queue := queue + [waiting[i]];
      }
    }
  }

  // ---- what every step keeps ----

  function Under(running: map<nat, Run>, a: Account): set<nat> {
    set w | w in running && running[w].account == a
  }

  /** Workers under the account that did not just resume monitoring a remote run. */
  function Starters(running: map<nat, Run>, a: Account): set<nat> {
    set w | w in running && running[w].account == a && !running[w].item.Resumes()
  }

  ghost predicate OneWorkerPerJob(p: State) {
    && (forall v, w :: v in p.running && w in p.running && p.running[v].item.job == p.running[w].item.job ==> v == w)
    && (forall j :: j in p.active <==> exists w :: w in p.running && p.running[w].item.job == j)
  }

  /** Counters match the workers; starters stay within the limit; nobody waits beside a free slot. */
  predicate AccountOk(p: State, a: Account, concurrency: nat) {
    && Count(p.counts, a) == |Under(p.running, a)|
    && |Starters(p.running, a)| <= concurrency
    && (ParkedOf(p.parked, a) != [] ==> Count(p.counts, a) >= concurrency)
    && (forall i :: 0 <= i < |ParkedOf(p.parked, a)| ==> !ParkedOf(p.parked, a)[i].Resumes())
  }

  ghost predicate Inv(p: State, concurrency: nat) {
    OneWorkerPerJob(p) && forall a: Account :: AccountOk(p, a, concurrency)
  }

  lemma {:induction false} ParkKeeps(waiting: seq<Item>, item: Item)
    ensures Park(waiting, item) != [] && item in Park(waiting, item)
    ensures forall i :: i in Park(waiting, item) ==> i == item || i in waiting
    ensures forall i :: i in waiting && i.job != item.job ==> i in Park(waiting, item)
  {
    if waiting != [] && waiting[0].job != item.job {
      ParkKeeps(waiting[1..], item);
      assert waiting == [waiting[0]] + waiting[1..];
    } else if waiting != [] {
      assert waiting == [waiting[0]] + waiting[1..];
    }
  }

  lemma EndsUnder(running: map<nat, Run>, w: nat, a: Account)
    requires w in running
    ensures Under(running - {w}, a) == Under(running, a) - {w}
    ensures Starters(running - {w}, a) == Starters(running, a) - {w}
    ensures w in Under(running, a) <==> running[w].account == a
    ensures |Starters(running - {w}, a)| <= |Starters(running, a)|
  {
    SubsetSize(Starters(running, a) - {w}, Starters(running, a));
  }

  lemma StartsUnder(running: map<nat, Run>, w: nat, r: Run, a: Account)
    requires w !in running
    ensures Under(running[w := r], a) == if r.account == a then Under(running, a) + {w} else Under(running, a)
    ensures w !in Under(running, a)
  {
  }

  lemma StartsStarter(running: map<nat, Run>, w: nat, r: Run, a: Account)
    requires w !in running
    ensures Starters(running[w := r], a) == if r.account == a && !r.item.Resumes() then Starters(running, a) + {w} else Starters(running, a)
    ensures |Starters(running, a)| <= |Under(running, a)|
  {
    SubsetSize(Starters(running, a), Under(running, a));
  }

  lemma RunsItem(p: State, w: nat, r: Run)
    requires OneWorkerPerJob(p) && w !in p.running && r.item.job !in p.active
    ensures OneWorkerPerJob(p.(active := p.active + {r.item.job}, running := p.running[w := r]))
  {
    var t := p.(active := p.active + {r.item.job}, running := p.running[w := r]);
    forall j ensures j in t.active <==> exists v :: v in t.running && t.running[v].item.job == j {
      if j in p.active {
        var v :| v in p.running && p.running[v].item.job == j;
        assert v in t.running && t.running[v].item.job == j;
      } else if j == r.item.job {
        assert w in t.running && t.running[w].item.job == j;
      }
    }
  }

  lemma TakeAccount(p: State, w: nat, rows: Rows, account: Account, concurrency: nat, a: Account)
    requires AccountOk(p, a, concurrency) && p.queue != [] && w !in p.running
    ensures AccountOk(Take(p, w, rows, account, concurrency), a, concurrency)
  {
    hide Under, Starters;
    var t, item := Take(p, w, rows, account, concurrency), p.queue[0];
    match Decide(p, rows, item, account, concurrency) {
      case Drop =>
      case ParkIt =>
        var waiting := ParkedOf(p.parked, account);
        ParkKeeps(waiting, item);
        if a == account {
          forall i | 0 <= i < |Park(waiting, item)| ensures !Park(waiting, item)[i].Resumes() {
            assert Park(waiting, item)[i] in Park(waiting, item);
          }
        } else {
          assert ParkedOf(t.parked, a) == ParkedOf(p.parked, a);
        }
      case RunIt =>
        StartsUnder(p.running, w, Run(item, account), a);
        StartsStarter(p.running, w, Run(item, account), a);
    }
  }

  lemma TakeInv(p: State, w: nat, rows: Rows, account: Account, concurrency: nat)
    requires Inv(p, concurrency) && p.queue != [] && w !in p.running
    ensures Inv(Take(p, w, rows, account, concurrency), concurrency)
  {
    hide AccountOk, OneWorkerPerJob;
    var t, item := Take(p, w, rows, account, concurrency), p.queue[0];
    forall a: Account ensures AccountOk(t, a, concurrency) {
      assert AccountOk(p, a, concurrency);
      TakeAccount(p, w, rows, account, concurrency, a);
    }
    match Decide(p, rows, item, account, concurrency) {
      case Drop => SameWorkers(p, t);
      case ParkIt => SameWorkers(p, t);
      case RunIt =>
        RunsItem(p, w, Run(item, account));
        SameWorkers(p.(active := p.active + {item.job}, running := p.running[w := Run(item, account)]), t);
    }
  }

  lemma SameWorkers(p: State, t: State)
    requires OneWorkerPerJob(p) && t.active == p.active && t.running == p.running
    ensures OneWorkerPerJob(t)
  {
  }

  lemma FinishInv(p: State, w: nat, concurrency: nat)
    requires Inv(p, concurrency) && w in p.running
    ensures Inv(Finish(p, w), concurrency)
  {
    var t := Finish(p, w);
    forall a: Account ensures AccountOk(t, a, concurrency) {
      assert AccountOk(p, a, concurrency);
      EndsUnder(p.running, w, a);
    }
    forall j ensures j in t.active <==> exists v :: v in t.running && t.running[v].item.job == j {
      if j in t.active {
        var v :| v in p.running && p.running[v].item.job == j;
        assert v in t.running && t.running[v].item.job == j;
      }
    }
  }

  /** Whoever is parked has a worker of its account still running, and when that worker ends,
      the parked item is back in the queue and its account has a slot less in use. */
  lemma ParkedItemsReturn(p: State, a: Account, concurrency: nat)
    requires Inv(p, concurrency) && concurrency > 0 && ParkedOf(p.parked, a) != []
    ensures exists w :: w in p.running && p.running[w].account == a
    ensures forall w :: w in p.running && p.running[w].account == a ==>
              && ParkedOf(p.parked, a) <= Finish(p, w).queue[|p.queue|..]
              && a !in Finish(p, w).parked
              && Count(Finish(p, w).counts, a) == Count(p.counts, a) - 1
  {
    assert AccountOk(p, a, concurrency);
    if Under(p.running, a) == {} {
      assert false;
    }
    var w :| w in Under(p.running, a);
    assert w in p.running && p.running[w].account == a;
  }

  // ---- no bound queued job is forgotten ----

  predicate Bound(rows: Rows, j: JobId) {
    j in rows && rows[j].status.Queued? && !rows[j].awaiting
  }

  predicate Waits(items: seq<Item>, j: JobId) {
    exists i :: 0 <= i < |items| && items[i].job == j && !items[i].Resumes()
  }

  ghost predicate Held(p: State, j: JobId) {
    || Waits(p.queue, j)
    || (exists a: Account :: Waits(ParkedOf(p.parked, a), j))
    || j in p.active
  }

  ghost predicate NoneForgotten(p: State, rows: Rows) {
    forall j :: Bound(rows, j) ==> Held(p, j)
  }

  lemma WaitsAppend(s: seq<Item>, t: seq<Item>, j: JobId)
    ensures Waits(s, j) || Waits(t, j) ==> Waits(s + t, j)
  {
    if Waits(s, j) {
      var i :| 0 <= i < |s| && s[i].job == j && !s[i].Resumes();
      assert (s + t)[i] == s[i];
    } else if Waits(t, j) {
      var i :| 0 <= i < |t| && t[i].job == j && !t[i].Resumes();
      assert (s + t)[|s| + i] == t[i];
    }
  }

  /** Finishing forgets nobody exactly when the finished job itself is not left queued without an item. */
  lemma FinishForgetsNone(p: State, w: nat, rows: Rows)
    requires w in p.running && OneWorkerPerJob(p) && NoneForgotten(p, rows)
    ensures NoneForgotten(Finish(p, w), rows) <==> (Bound(rows, p.running[w].item.job) ==> Held(Finish(p, w), p.running[w].item.job))
  {
    hide Waits;
    var t, r := Finish(p, w), p.running[w];
    forall j | Bound(rows, j) && j != r.item.job ensures Held(t, j) {
      WaitsAppend(p.queue, ParkedOf(p.parked, r.account), j);
      if !Waits(p.queue, j) && j !in p.active {
        var a: Account :| Waits(ParkedOf(p.parked, a), j);
        if a != r.account {
          assert ParkedOf(t.parked, a) == ParkedOf(p.parked, a);
        }
      }
    }
  }

  lemma EmptyPool(concurrency: nat)
    ensures Inv(State([], {}, map[], map[], map[]), concurrency)
  {
    var p := State([], {}, map[], map[], map[]);
    forall a: Account ensures AccountOk(p, a, concurrency) {
      assert Under(p.running, a) == {} && Starters(p.running, a) == {};
    }
  }

  /** New items keep everything. */
  lemma AppendInv(p: State, items: seq<Item>, concurrency: nat)
    requires Inv(p, concurrency)
    ensures Inv(p.(queue := p.queue + items), concurrency)
  {
    var t := p.(queue := p.queue + items);
    forall a: Account ensures AccountOk(t, a, concurrency) {
      assert AccountOk(p, a, concurrency);
    }
  }

  // ---- the pool makes the decisions that JobProtocol allows ----

  /** For a job whose protocol state agrees with the tables, an item is run only where the protocol can
      dequeue it, dropped only where the protocol can skip it, and runs on at most one worker. */
  lemma DecisionsFollowProtocol(p: State, rows: Rows, item: Item, account: Account, concurrency: nat, s: JobProtocol.JobState, w: nat)
    requires item.job in rows && rows[item.job] == View(s.row.status, JobProtocol.AwaitingAssignment(s.row))
    requires (item.job in p.active <==> s.active) && item.kind in s.queue && w !in s.threads
    ensures Decide(p, rows, item, account, concurrency) == Drop <==> JobProtocol.ServerEnabled(s, JobProtocol.SkipItem(item.kind))
    ensures Decide(p, rows, item, account, concurrency) != Drop <==> JobProtocol.ServerEnabled(s, JobProtocol.Dequeue(item.kind, w))
  {
  }
}
