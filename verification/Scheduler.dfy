/** The dynamic scheduler: one pass over the pending jobs, oldest first, binding each at most once to an
    allowed account with a free slot and GPU quota. */
module Scheduler {
  import opened Options
  import opened Database
  import opened KaggleRefs

  type Key = nat      // key ids, numbered in their string order
  type User = string
  type Token = nat

  datatype Credential = Credential(username: User, enabled: bool)

  /** The auth configuration: the keys, and per relay token the keys it may use (None: all of them). */
  datatype Auth = Auth(keys: map<Key, Credential>, tokens: map<Token, Option<set<Key>>>)

  /** The result of a finished quota lookup; gpuHours is the first GPU accelerator's remaining time, else 0. */
  datatype Quota = Quota(verified: bool, available: bool, gpuHours: real)

  datatype Job = Job(
    status: Status, cancelRequested: bool, dynamic: bool, pending: bool, token: Token, key: Key,
    eligible: map<Key, User>,     // the accounts recorded when the job was created
    datasetRef: string, kernelRef: string)

  predicate Awaiting(job: Job) {
    job.dynamic && job.pending
  }

  predicate Waiting(job: Job) {
    job.status.Queued? && Awaiting(job)
  }

  function AllowedKeys(auth: Auth, token: Token, includeDisabled: bool): set<Key>
    requires token in auth.tokens
  {
    var granted := if auth.tokens[token].Some? then auth.tokens[token].value else auth.keys.Keys;
    set k | k in granted && k in auth.keys && (includeDisabled || auth.keys[k].enabled)
  }

  /** The recorded accounts that are still allowed and still belong to the same user, ignoring case. */
  function CurrentAccounts(job: Job, auth: Auth, includeDisabled: bool): map<Key, User> {
    if job.token !in auth.tokens then map[]
    else
      map k | k in job.eligible && k in AllowedKeys(auth, job.token, includeDisabled)
              && Lower(auth.keys[k].username) == Lower(job.eligible[k]) :: job.eligible[k]
  }

  predicate Occupying(s: Status) {
    s.Queued? || s.UploadingDataset? || s.WaitingDataset? || s.PushingKernel? || s.WaitingKernel? || s.CancelRequested? || s.DownloadingOutput?
  }

  predicate Occupies(job: Job, auth: Auth, u: User) {
    && Occupying(job.status) && !Awaiting(job) && job.key in auth.keys
    && auth.keys[job.key].username != "" && Lower(auth.keys[job.key].username) == u
  }

  function Occupied(jobs: seq<Job>, auth: Auth, u: User): nat {
    if jobs == [] then 0
    else Occupied(jobs[..|jobs| - 1], auth, u) + if Occupies(jobs[|jobs| - 1], auth, u) then 1 else 0
  }

  /** The slots of an account: the jobs that are not awaiting assignment, neither ended nor still being received or assembled,
      and whose key belongs to the user. */
  function Holders(jobs: seq<Job>, auth: Auth, u: User): set<nat> {
    set i: nat | i < |jobs|
      && !(jobs[i].dynamic && jobs[i].pending)
      && jobs[i].status !in {Receiving, Assembling, Complete, Failed, Canceled}
      && jobs[i].key in auth.keys && auth.keys[jobs[i].key].username != "" && Lower(auth.keys[jobs[i].key].username) == u
  }

  lemma {:induction false} OccupiedIsHolders(jobs: seq<Job>, auth: Auth, u: User)
    ensures Occupied(jobs, auth, u) == |Holders(jobs, auth, u)|
  {
    hide Lower, Occupies, Holders;
    if jobs == [] {
      NoHolders(auth, u);
    } else {
      var n := |jobs| - 1;
      OccupiedIsHolders(jobs[..n], auth, u);
      LastHolder(jobs, auth, u);
    }
  }

  lemma NoHolders(auth: Auth, u: User)
    ensures Holders([], auth, u) == {}
  {
  }

  lemma LastHolder(jobs: seq<Job>, auth: Auth, u: User)
    requires jobs != []
    ensures var n := |jobs| - 1;
      && n !in Holders(jobs[..n], auth, u)
      && Holders(jobs, auth, u) == if Occupies(jobs[n], auth, u) then Holders(jobs[..n], auth, u) + {n} else Holders(jobs[..n], auth, u)
  {
    hide Lower;
    var n := |jobs| - 1;
    forall j | 0 <= j < n ensures j in Holders(jobs, auth, u) <==> j in Holders(jobs[..n], auth, u) { assert jobs[..n][j] == jobs[j]; }
  }

  lemma OccupiedAreHolders(jobs: seq<Job>, auth: Auth)
    ensures forall u: User :: Occupied(jobs, auth, u) == |Holders(jobs, auth, u)|
  {
    hide Occupied, Holders;
    forall u: User ensures Occupied(jobs, auth, u) == |Holders(jobs, auth, u)| { OccupiedIsHolders(jobs, auth, u); }
  }

  /** The token may use the key now, and the key still belongs to the user recorded for the job, ignoring case. */
  predicate Authorized(job: Job, auth: Auth, k: Key) {
    && k in job.eligible && k in auth.keys && job.token in auth.tokens
    && (auth.tokens[job.token].Some? ==> k in auth.tokens[job.token].value)
    && Lower(auth.keys[k].username) == Lower(job.eligible[k])
  }

  /** An enabled one, with a quota lookup that confirmed the identity and found GPU hours. */
  predicate Ready(job: Job, auth: Auth, quotas: map<Key, Quota>, k: Key) {
    && Authorized(job, auth, k) && auth.keys[k].enabled
    && k in quotas && quotas[k].verified && quotas[k].available && quotas[k].gpuHours > 0.0
  }

  /** It has a free slot as well. */
  predicate Takes(jobs: seq<Job>, auth: Auth, quotas: map<Key, Quota>, limit: nat, job: Job, k: Key) {
    Ready(job, auth, quotas, k) && |Holders(jobs, auth, Lower(auth.keys[k].username))| < limit
  }

  lemma AccountsAuthorized(job: Job, auth: Auth)
    ensures forall k :: k in CurrentAccounts(job, auth, true) <==> Authorized(job, auth, k)
    ensures forall k :: k in CurrentAccounts(job, auth, false) <==> Authorized(job, auth, k) && auth.keys[k].enabled
  {
    hide Lower;
  }

  lemma FreeTakes(jobs: seq<Job>, auth: Auth, quotas: map<Key, Quota>, limit: nat, job: Job, k: Key)
    ensures Free(jobs, auth, quotas, limit, job, k) <==> Takes(jobs, auth, quotas, limit, job, k)
  {
    hide Lower, Occupied, Holders, CurrentAccounts, Authorized;
    AccountsAuthorized(job, auth);
    if k in job.eligible { OccupiedIsHolders(jobs, auth, Lower(job.eligible[k])); }
    SameOwner(job, auth, k);
  }

  lemma SameOwner(job: Job, auth: Auth, k: Key)
    ensures Authorized(job, auth, k) ==> k in job.eligible && k in auth.keys && Lower(auth.keys[k].username) == Lower(job.eligible[k])
    ensures k in CurrentAccounts(job, auth, false) ==> k in job.eligible
  {
    hide Lower;
  }

  predicate Usable(quotas: map<Key, Quota>, k: Key) {
    k in quotas && quotas[k].verified && quotas[k].available && quotas[k].gpuHours > 0.0
  }

  /** The account can take one more job and has quota. */
  predicate Free(jobs: seq<Job>, auth: Auth, quotas: map<Key, Quota>, limit: nat, job: Job, k: Key) {
    && k in CurrentAccounts(job, auth, false)
    && Occupied(jobs, auth, Lower(job.eligible[k])) < limit
    && Usable(quotas, k)
  }

  /** min over (-remaining, key): more GPU hours first, then the smaller key. */
  predicate Precedes(quotas: map<Key, Quota>, k: Key, l: Key)
    requires k in quotas && l in quotas
  {
    quotas[k].gpuHours > quotas[l].gpuHours || (quotas[k].gpuHours == quotas[l].gpuHours && k < l)
  }

  /** A bound job: the chosen key, the owner of both references replaced, everything else as it was. */
  predicate BoundTo(job: Job, bound: Job, k: Key) {
    && Waiting(job) && !job.cancelRequested && k in job.eligible
    && RewriteOwner(job.datasetRef, job.eligible[k]).Some? && RewriteOwner(job.kernelRef, job.eligible[k]).Some?
    && bound == job.(key := k, pending := false,
                     datasetRef := RewriteOwner(job.datasetRef, job.eligible[k]).value,
                     kernelRef := RewriteOwner(job.kernelRef, job.eligible[k]).value)
  }

  /** What one turn of the pass may do to job i. */
  predicate Turn(before: seq<Job>, after: seq<Job>, i: nat, auth: Auth, quotas: map<Key, Quota>, limit: nat)
    requires i < |before|
  {
    var job := before[i];
    if !Waiting(job) then after == before
    else if CurrentAccounts(job, auth, false) == map[] then
      if CurrentAccounts(job, auth, true) != map[] then after == before else after == before[i := job.(status := Failed)]
    else if job.cancelRequested || (forall k :: k in job.eligible ==> !Free(before, auth, quotas, limit, job, k)) then after == before
    else
      exists k :: k in job.eligible && Chosen(before, auth, quotas, limit, job, k)
        && |after| == |before| && BoundTo(job, after[i], k) && after == before[i := after[i]]
  }

  predicate Chosen(jobs: seq<Job>, auth: Auth, quotas: map<Key, Quota>, limit: nat, job: Job, k: Key) {
    Free(jobs, auth, quotas, limit, job, k)
    && forall l :: l in job.eligible && Free(jobs, auth, quotas, limit, job, l) && l != k ==> Precedes(quotas, k, l)
  }

  /** An account that takes the job, and of those the one with the most GPU hours, then with the smallest key. */
  predicate Best(jobs: seq<Job>, auth: Auth, quotas: map<Key, Quota>, limit: nat, job: Job, k: Key) {
    && Takes(jobs, auth, quotas, limit, job, k)
    && forall l :: l in job.eligible && Takes(jobs, auth, quotas, limit, job, l) && l != k ==>
         quotas[k].gpuHours > quotas[l].gpuHours || (quotas[k].gpuHours == quotas[l].gpuHours && k < l)
  }

  lemma ChosenIsBest(jobs: seq<Job>, auth: Auth, quotas: map<Key, Quota>, limit: nat, job: Job, k: Key)
    requires Chosen(jobs, auth, quotas, limit, job, k)
    ensures Best(jobs, auth, quotas, limit, job, k)
  {
    hide Free, Takes;
    FreeTakes(jobs, auth, quotas, limit, job, k);
    assert Takes(jobs, auth, quotas, limit, job, k);
    TakesReady(jobs, auth, quotas, limit, job, k);
    forall l | l in job.eligible && Takes(jobs, auth, quotas, limit, job, l) && l != k
      ensures l in quotas && (quotas[k].gpuHours > quotas[l].gpuHours || (quotas[k].gpuHours == quotas[l].gpuHours && k < l))
    {
      FreeTakes(jobs, auth, quotas, limit, job, l);
      TakesReady(jobs, auth, quotas, limit, job, l);
    }
  }

  lemma TakesReady(jobs: seq<Job>, auth: Auth, quotas: map<Key, Quota>, limit: nat, job: Job, k: Key)
    requires Takes(jobs, auth, quotas, limit, job, k)
    ensures k in job.eligible && k in quotas && Ready(job, auth, quotas, k)
  {
    hide Lower, Holders;
  }

  /** create_job rewrites both references with a non-empty user name, so they split into owner and slug. */
  predicate Sound(job: Job) {
    Waiting(job) ==> SplitRef(job.datasetRef).Some? && SplitRef(job.kernelRef).Some?
  }

  // ---- counting ----

  lemma {:induction false} OccupiedUpdate(jobs: seq<Job>, i: nat, job: Job, auth: Auth, u: User)
    requires i < |jobs|
    ensures Occupied(jobs[i := job], auth, u) + (if Occupies(jobs[i], auth, u) then 1 else 0)
         == Occupied(jobs, auth, u) + (if Occupies(job, auth, u) then 1 else 0)
  {
    hide Occupies;
    var n := |jobs| - 1;
    if i == n {
      assert jobs[i := job][..n] == jobs[..n];
    } else {
      assert jobs[i := job][..n] == jobs[..n][i := job];
      OccupiedUpdate(jobs[..n], i, job, auth, u);
    }
  }

  /** Within a pass slots only fill up, and at most one per turn. */
  lemma TurnFills(before: seq<Job>, after: seq<Job>, i: nat, auth: Auth, quotas: map<Key, Quota>, limit: nat, u: User)
    requires i < |before| && Turn(before, after, i, auth, quotas, limit)
    ensures |after| == |before|
    ensures Occupied(before, auth, u) <= Occupied(after, auth, u)
    ensures Occupied(after, auth, u) <= limit || Occupied(after, auth, u) == Occupied(before, auth, u)
  {
    hide Lower, RewriteOwner, Occupied, Usable;
    if after != before {
      OccupiedUpdate(before, i, after[i], auth, u);
      assert after == before[i := after[i]];
      if !after[i].status.Failed? {
        var k :| k in before[i].eligible && Chosen(before, auth, quotas, limit, before[i], k) && BoundTo(before[i], after[i], k);
        assert Occupies(after[i], auth, u) ==> u == Lower(before[i].eligible[k]);
      }
    }
  }

  // ---- the pass ----

  /** Indices of jobs that were waiting and now are bound. */
  function NewlyBound(before: seq<Job>, after: seq<Job>, n: nat): seq<nat>
    requires n <= |before| == |after|
  {
    if n == 0 then []
    else NewlyBound(before, after, n - 1) + if Waiting(before[n - 1]) && !after[n - 1].pending then [n - 1] else []
  }

  class Dispatcher {
    var jobs: seq<Job>      // by creation time
    var queue: seq<nat>     // process items
    const limit: nat        // account_concurrency

    constructor (n: nat)
      ensures jobs == [] && queue == [] && limit == n
    {
      jobs, queue, limit := [], [], n;
    }

    method OccupiedAccounts(auth: Auth) returns (counts: map<User, nat>)
      ensures forall u: User :: (if u in counts then counts[u] else 0) == |Holders(jobs, auth, u)|
    {
      counts := map[];
      OccupiedAreHolders(jobs, auth);
      for i := 0 to |jobs|
        invariant forall u: User :: (if u in counts then counts[u] else 0) == Occupied(jobs[..i], auth, u)
      {
        hide Lower;
        var job := jobs[i];
        assert jobs[..i + 1][..i] == jobs[..i];
        if Occupying(job.status) && !Awaiting(job) && job.key in auth.keys && auth.keys[job.key].username != "" {
          var u := Lower(auth.keys[job.key].username);
          counts := counts[u := (if u in counts then counts[u] else 0) + 1];
        }
      }
      assert jobs[..|jobs|] == jobs;
    }

    /** The best available account, or None. */
    method Choose(job: Job, auth: Auth, quotas: map<Key, Quota>) returns (best: Option<Key>)
      ensures best.Some? ==> Best(jobs, auth, quotas, limit, job, best.value)
      ensures best.None? ==> forall k :: k in job.eligible ==> !Takes(jobs, auth, quotas, limit, job, k)
      ensures best.Some? ==> Chosen(jobs, auth, quotas, limit, job, best.value)
      ensures best.None? ==> forall k :: k in job.eligible ==> !Free(jobs, auth, quotas, limit, job, k)
    {
      hide Lower, Occupied, Holders, Takes, Best;
      var counts := OccupiedAccounts(auth);
      OccupiedAreHolders(jobs, auth);
      var allowed := CurrentAccounts(job, auth, false);
      var rest := allowed.Keys;
      best := None;
      while rest != {}
        invariant rest <= allowed.Keys
        invariant best.Some? ==> Free(jobs, auth, quotas, limit, job, best.value) && best.value !in rest
        invariant forall k :: k in allowed && k !in rest && Free(jobs, auth, quotas, limit, job, k) ==>
                    best.Some? && (k == best.value || Precedes(quotas, best.value, k))
      {
        var k :| k in rest;
        rest := rest - {k};
        var u := Lower(allowed[k]);
        var taken := if u in counts then counts[u] else 0;
        if taken < limit && Usable(quotas, k) && (best.None? || Precedes(quotas, k, best.value)) {
          best := Some(k);
        }
      }
      if best.Some? {
        ChosenIsBest(jobs, auth, quotas, limit, job, best.value);
      } else {
        forall k | k in job.eligible ensures !Takes(jobs, auth, quotas, limit, job, k) { FreeTakes(jobs, auth, quotas, limit, job, k); }
      }
    }

    method ScheduleJob(i: nat, auth: Auth, quotas: map<Key, Quota>)
      requires i < |jobs| && Sound(jobs[i])
      modifies this`jobs, this`queue
      ensures Turn(old(jobs), jobs, i, auth, quotas, limit)
      ensures queue == old(queue) + if Waiting(old(jobs)[i]) && |jobs| == |old(jobs)| && !jobs[i].pending then [i] else []
    {
      hide Lower, Occupied, Free, CurrentAccounts, SplitRef;
      var job := jobs[i];
      if !Waiting(job) {
        return;
      }
      if CurrentAccounts(job, auth, false) == map[] {
        if CurrentAccounts(job, auth, true) == map[] {
          jobs := jobs[i := job.(status := Failed)];
        }
        return;
      }
      var best := Choose(job, auth, quotas);
      if best.None? || job.cancelRequested {
        return;
      }
      var k := best.value;
      assert k in job.eligible by { FreeIsEligible(jobs, auth, quotas, limit, job, k); }
      var dataset, kernel := RewriteOwner(job.datasetRef, job.eligible[k]), RewriteOwner(job.kernelRef, job.eligible[k]);
      var bound := job.(key := k, pending := false, datasetRef := dataset.value, kernelRef := kernel.value);
      assert BoundTo(job, bound, k);
      jobs := jobs[i := bound];
      queue := queue + [i];
      assert Chosen(old(jobs), auth, quotas, limit, job, k);
      assert jobs[i] == bound && jobs == old(jobs)[i := jobs[i]];
    }

    /** One scheduling pass.  A job is failed exactly if no account of its snapshot, enabled or not, is authorized any more.
        A bound job got, at its turn with only older jobs served, the best account that took it.  Whoever still waits
        finds every account that is ready for it full, and none of its enabled accounts went to a younger job.  Bound jobs
        are enqueued oldest first, and no account is filled beyond its limit. */
    method SchedulePending(auth: Auth, quotas: map<Key, Quota>)
      requires forall i :: 0 <= i < |jobs| ==> Sound(jobs[i])
      modifies this`jobs, this`queue
      ensures |jobs| == |old(jobs)|
      ensures forall i :: 0 <= i < |jobs| && jobs[i] != old(jobs)[i] ==>
                && old(jobs)[i].status == Queued && old(jobs)[i].dynamic && old(jobs)[i].pending
                && (jobs[i] == old(jobs)[i].(status := Failed) || BoundTo(old(jobs)[i], jobs[i], jobs[i].key))
      ensures forall i :: 0 <= i < |jobs| && old(jobs)[i].status == Queued && old(jobs)[i].dynamic && old(jobs)[i].pending ==>
                (jobs[i].status == Failed <==> forall k :: k in old(jobs)[i].eligible ==> !Authorized(old(jobs)[i], auth, k))
      ensures forall i :: 0 <= i < |jobs| && jobs[i].status == Queued && jobs[i].dynamic && jobs[i].pending && !jobs[i].cancelRequested ==>
                forall k :: k in jobs[i].eligible && Ready(jobs[i], auth, quotas, k) ==> |Holders(jobs, auth, Lower(auth.keys[k].username))| >= limit
      ensures forall a, b :: (0 <= a < b < |jobs| && jobs[a].status == Queued && jobs[a].dynamic && jobs[a].pending && !jobs[a].cancelRequested
                              && old(jobs)[b].pending && !jobs[b].pending) ==> !(Authorized(jobs[a], auth, jobs[b].key) && auth.keys[jobs[b].key].enabled)
      ensures forall b :: 0 <= b < |jobs| && old(jobs)[b].pending && !jobs[b].pending ==>
                Best(jobs[..b] + old(jobs)[b..], auth, quotas, limit, old(jobs)[b], jobs[b].key)
      ensures queue == old(queue) + NewlyBound(old(jobs), jobs, |jobs|)
      ensures forall u: User :: |Holders(jobs, auth, u)| <= limit || |Holders(jobs, auth, u)| == |Holders(old(jobs), auth, u)|
    {
      Pass(auth, quotas);
      hide Lower, Occupied, Holders, RewriteOwner, CurrentAccounts, Authorized, NewlyBound, Best, Chosen, AllFull, Outcome, BoundTo, Ready;
      OccupiedAreHolders(jobs, auth);
      OccupiedAreHolders(old(jobs), auth);
      forall i | 0 <= i < |jobs| ensures Settled(old(jobs)[i], jobs[i], auth) {
        OutcomeSettles(old(jobs)[i], jobs[i], auth, quotas);
      }
      forall i | 0 <= i < |jobs| && Waiting(jobs[i]) && !jobs[i].cancelRequested
        ensures forall k :: k in jobs[i].eligible && Ready(jobs[i], auth, quotas, k) ==> |Holders(jobs, auth, Lower(auth.keys[k].username))| >= limit
      {
        FullReady(jobs, auth, quotas, limit, jobs[i]);
      }
      forall b | 0 <= b < |jobs| && old(jobs)[b].pending && !jobs[b].pending
        ensures Best(jobs[..b] + old(jobs)[b..], auth, quotas, limit, old(jobs)[b], jobs[b].key)
      {
        assert Waiting(old(jobs)[b]);
        ChosenIsBest(jobs[..b] + old(jobs)[b..], auth, quotas, limit, old(jobs)[b], jobs[b].key);
      }
      forall a, b | 0 <= a < b < |jobs| && Waiting(jobs[a]) && !jobs[a].cancelRequested && old(jobs)[b].pending && !jobs[b].pending
        ensures !(Authorized(jobs[a], auth, jobs[b].key) && auth.keys[jobs[b].key].enabled)
      {
        assert Waiting(old(jobs)[b]);
        AccountsAuthorized(jobs[a], auth);
      }
    }

    method Pass(auth: Auth, quotas: map<Key, Quota>)
      requires forall i :: 0 <= i < |jobs| ==> Sound(jobs[i])
      modifies this`jobs, this`queue
      ensures |jobs| == |old(jobs)|
      ensures forall i :: 0 <= i < |jobs| ==> Outcome(old(jobs)[i], jobs[i], auth, quotas)
      ensures forall i :: 0 <= i < |jobs| && Waiting(jobs[i]) && !jobs[i].cancelRequested ==> AllFull(jobs, auth, quotas, limit, jobs[i])
      ensures forall a, b :: 0 <= a < b < |jobs| && Waiting(jobs[a]) && !jobs[a].cancelRequested && Waiting(old(jobs)[b]) && !jobs[b].pending ==>
                jobs[b].key !in CurrentAccounts(jobs[a], auth, false)
      ensures forall b :: 0 <= b < |jobs| && Waiting(old(jobs)[b]) && !jobs[b].pending ==>
                Chosen(jobs[..b] + old(jobs)[b..], auth, quotas, limit, old(jobs)[b], jobs[b].key)
      ensures queue == old(queue) + NewlyBound(old(jobs), jobs, |jobs|)
      ensures forall u: User :: Occupied(jobs, auth, u) <= limit || Occupied(jobs, auth, u) == Occupied(old(jobs), auth, u)
    {
      hide Lower, Occupied, RewriteOwner, SplitRef, CurrentAccounts, NewlyBound, Turn, Waiting, Outcome, AllFull, Chosen;
      var n := |jobs|;
      ghost var start := jobs;
      assert NewlyBound(start, jobs, 0) == [] by { NewlyNone(start, jobs); }
      for i := 0 to n
        invariant |jobs| == n
        invariant forall j :: i <= j < n ==> jobs[j] == start[j]
        invariant forall j :: 0 <= j < i ==> Outcome(start[j], jobs[j], auth, quotas)
        invariant forall j :: 0 <= j < i && Waiting(jobs[j]) && !jobs[j].cancelRequested ==> AllFull(jobs, auth, quotas, limit, jobs[j])
        invariant forall b :: 0 <= b < i && Waiting(start[b]) && !jobs[b].pending ==>
                    Chosen(jobs[..b] + start[b..], auth, quotas, limit, start[b], jobs[b].key)
        invariant forall a, b :: 0 <= a < b < i && Waiting(jobs[a]) && !jobs[a].cancelRequested && Waiting(start[b]) && !jobs[b].pending ==>
                    jobs[b].key !in CurrentAccounts(jobs[a], auth, false)
        invariant queue == old(queue) + NewlyBound(start, jobs, i)
        invariant forall u: User :: Occupied(jobs, auth, u) <= limit || Occupied(jobs, auth, u) == Occupied(start, auth, u)
      {
        ghost var before := jobs;
        ScheduleJob(i, auth, quotas);
        TurnShape(before, jobs, i, auth, quotas, limit);
        TurnFillsAll(before, jobs, i, auth, quotas, limit);
        NewlyNext(start, before, jobs, i);
        forall j | 0 <= j < i && Waiting(jobs[j]) && !jobs[j].cancelRequested
          ensures AllFull(jobs, auth, quotas, limit, jobs[j])
          ensures Waiting(start[i]) && !jobs[i].pending ==> jobs[i].key !in CurrentAccounts(jobs[j], auth, false)
        {
          StillFull(before, jobs, auth, quotas, limit, jobs[j]);
          if Waiting(start[i]) && !jobs[i].pending { ChosenIsFree(before, auth, quotas, limit, before[i], jobs[i].key); NotOvertaken(before, auth, quotas, limit, before[i], jobs[i].key, jobs[j]); }
        }
        forall b | 0 <= b <= i && Waiting(start[b]) && !jobs[b].pending
          ensures Chosen(jobs[..b] + start[b..], auth, quotas, limit, start[b], jobs[b].key)
        {
          assert jobs[..b] == before[..b];
          assert before == before[..i] + start[i..];
        }
      }
    }
  }

  /** What a pass makes of one job: nothing, a failure for want of any allowed account, or a binding to an
      enabled, still allowed account of the snapshot with quota. */
  predicate Outcome(job: Job, after: Job, auth: Auth, quotas: map<Key, Quota>) {
    || (after == job && (Waiting(job) ==> CurrentAccounts(job, auth, true) != map[]))
    || (Waiting(job) && CurrentAccounts(job, auth, true) == map[] && after == job.(status := Failed))
    || (BoundTo(job, after, after.key) && after.key in CurrentAccounts(job, auth, false) && Usable(quotas, after.key))
  }

  predicate AllFull(jobs: seq<Job>, auth: Auth, quotas: map<Key, Quota>, limit: nat, job: Job) {
    forall k :: k in CurrentAccounts(job, auth, false) && Usable(quotas, k) ==> Occupied(jobs, auth, Lower(job.eligible[k])) >= limit
  }

  predicate Settled(job: Job, after: Job, auth: Auth) {
    && (after == job || (Waiting(job) && (after == job.(status := Failed) || BoundTo(job, after, after.key))))
    && (Waiting(job) ==> (after.status == Failed <==> forall k :: k in job.eligible ==> !Authorized(job, auth, k)))
  }

  lemma OutcomeSettles(job: Job, after: Job, auth: Auth, quotas: map<Key, Quota>)
    requires Outcome(job, after, auth, quotas)
    ensures Settled(job, after, auth)
  {
    hide Lower, CurrentAccounts, RewriteOwner, Authorized;
    AccountsAuthorized(job, auth);
    AuthorizedEligible(job, auth);
    assert CurrentAccounts(job, auth, true) == map[] || exists k :: k in CurrentAccounts(job, auth, true);
  }

  lemma AuthorizedEligible(job: Job, auth: Auth)
    ensures forall k :: Authorized(job, auth, k) ==> k in job.eligible
  {
    hide Lower;
  }

  lemma FullReady(jobs: seq<Job>, auth: Auth, quotas: map<Key, Quota>, limit: nat, job: Job)
    requires AllFull(jobs, auth, quotas, limit, job)
    ensures forall k :: k in job.eligible && Ready(job, auth, quotas, k) ==> |Holders(jobs, auth, Lower(auth.keys[k].username))| >= limit
  {
    hide Lower, Occupied, Holders, CurrentAccounts;
    AccountsAuthorized(job, auth);
    OccupiedAreHolders(jobs, auth);
    forall k | k in job.eligible && Ready(job, auth, quotas, k) ensures |Holders(jobs, auth, Lower(auth.keys[k].username))| >= limit {
      SameOwner(job, auth, k);
    }
  }

  lemma FreeIsEligible(jobs: seq<Job>, auth: Auth, quotas: map<Key, Quota>, limit: nat, job: Job, k: Key)
    requires Free(jobs, auth, quotas, limit, job, k)
    ensures k in job.eligible
  {
    hide Lower;
  }

  lemma NewlyNone(before: seq<Job>, after: seq<Job>)
    requires |before| == |after|
    ensures NewlyBound(before, after, 0) == []
  {
  }

  lemma {:induction false} NewlyFrame(start: seq<Job>, x: seq<Job>, y: seq<Job>, n: nat)
    requires n <= |start| == |x| == |y| && forall j :: 0 <= j < n ==> x[j] == y[j]
    ensures NewlyBound(start, x, n) == NewlyBound(start, y, n)
  {
    if n > 0 { NewlyFrame(start, x, y, n - 1); }
  }

  lemma NewlyNext(start: seq<Job>, before: seq<Job>, after: seq<Job>, i: nat)
    requires i < |start| == |before| == |after| && forall j :: 0 <= j < i ==> before[j] == after[j]
    ensures NewlyBound(start, after, i + 1) == NewlyBound(start, before, i) + if Waiting(start[i]) && !after[i].pending then [i] else []
  {
    NewlyFrame(start, before, after, i);
  }

  lemma TurnShape(before: seq<Job>, after: seq<Job>, i: nat, auth: Auth, quotas: map<Key, Quota>, limit: nat)
    requires i < |before| && Turn(before, after, i, auth, quotas, limit)
    ensures |after| == |before| && forall j :: 0 <= j < |before| && j != i ==> after[j] == before[j]
    ensures Outcome(before[i], after[i], auth, quotas)
    ensures Waiting(after[i]) && !after[i].cancelRequested ==> AllFull(after, auth, quotas, limit, after[i])
    ensures Waiting(before[i]) && !after[i].pending ==> Chosen(before, auth, quotas, limit, before[i], after[i].key)
  {
    hide Lower, RewriteOwner, Occupied;
  }

  lemma TurnFillsAll(before: seq<Job>, after: seq<Job>, i: nat, auth: Auth, quotas: map<Key, Quota>, limit: nat)
    requires i < |before| && Turn(before, after, i, auth, quotas, limit)
    ensures forall u: User :: Occupied(before, auth, u) <= Occupied(after, auth, u)
    ensures forall u: User :: Occupied(after, auth, u) <= limit || Occupied(after, auth, u) == Occupied(before, auth, u)
  {
    hide Occupied, Turn;
    forall u: User
      ensures Occupied(before, auth, u) <= Occupied(after, auth, u)
      ensures Occupied(after, auth, u) <= limit || Occupied(after, auth, u) == Occupied(before, auth, u)
    {
      TurnFills(before, after, i, auth, quotas, limit, u);
    }
  }

  lemma StillFull(before: seq<Job>, after: seq<Job>, auth: Auth, quotas: map<Key, Quota>, limit: nat, job: Job)
    requires AllFull(before, auth, quotas, limit, job) && forall u: User :: Occupied(before, auth, u) <= Occupied(after, auth, u)
    ensures AllFull(after, auth, quotas, limit, job)
  {
    hide Lower, Occupied;
  }

  lemma ChosenIsFree(jobs: seq<Job>, auth: Auth, quotas: map<Key, Quota>, limit: nat, job: Job, k: Key)
    requires Chosen(jobs, auth, quotas, limit, job, k)
    ensures Free(jobs, auth, quotas, limit, job, k)
  {
    hide Free;
  }

  lemma SameUser(a: Job, b: Job, auth: Auth, k: Key)
    ensures k in CurrentAccounts(a, auth, false) && k in CurrentAccounts(b, auth, false) ==> Lower(a.eligible[k]) == Lower(b.eligible[k])
  {
    hide Lower;
  }

  /** An account with a free slot cannot be one that an older job, still waiting, may use. */
  lemma NotOvertaken(jobs: seq<Job>, auth: Auth, quotas: map<Key, Quota>, limit: nat, job: Job, k: Key, older: Job)
    requires Free(jobs, auth, quotas, limit, job, k) && AllFull(jobs, auth, quotas, limit, older)
    ensures k !in CurrentAccounts(older, auth, false)
  {
    hide Lower, Occupied;
    SameUser(older, job, auth, k);
  }

  // ---- every reachable state ----

  /** Scheduling turns interleave with everything else that happens to the jobs and with changes of the auth
      configuration that keep the keys' user names. */
  datatype Event =
    | Scheduled(job: nat, quotas: map<Key, Quota>, after: seq<Job>)
    | Created(added: Job)
    | Changed(job: nat, to: Job)
    | Reconfigured(auth: Auth)

  datatype World = World(jobs: seq<Job>, auth: Auth)

  predicate SameUsers(a: Auth, b: Auth) {
    a.keys.Keys == b.keys.Keys && forall k :: k in a.keys ==> a.keys[k].username == b.keys[k].username
  }

  predicate Possible(w: World, e: Event, limit: nat) {
    match e
    case Scheduled(i, quotas, after) => i < |w.jobs| && Turn(w.jobs, after, i, w.auth, quotas, limit)
    case Created(job) => Awaiting(job)
    // a bound job keeps its key and never starts to occupy a slot again once it ended
    case Changed(i, to) =>
      && i < |w.jobs| && to.dynamic && to.key == w.jobs[i].key && to.pending == w.jobs[i].pending
      && (Terminal(w.jobs[i].status) ==> Terminal(to.status)) && (Occupying(to.status) ==> Occupying(w.jobs[i].status) || to.pending)
    case Reconfigured(auth) => SameUsers(w.auth, auth)
  }

  function Next(w: World, e: Event): World {
    match e
    case Scheduled(_, _, after) => w.(jobs := after)
    case Created(job) => w.(jobs := w.jobs + [job])
    case Changed(i, to) => if i < |w.jobs| then w.(jobs := w.jobs[i := to]) else w
    case Reconfigured(auth) => w.(auth := auth)
  }

  ghost predicate WithinLimit(w: World, limit: nat) {
    && (forall u: User :: Occupied(w.jobs, w.auth, u) <= limit)
    && (forall i :: 0 <= i < |w.jobs| ==> w.jobs[i].dynamic)
  }

  lemma {:induction false} OccupiedSameUsers(jobs: seq<Job>, a: Auth, b: Auth, u: User)
    requires SameUsers(a, b)
    ensures Occupied(jobs, a, u) == Occupied(jobs, b, u)
  {
    hide Lower;
    if jobs != [] { OccupiedSameUsers(jobs[..|jobs| - 1], a, b, u); }
  }

  lemma StepWithinLimit(w: World, e: Event, limit: nat)
    requires WithinLimit(w, limit) && Possible(w, e, limit)
    ensures WithinLimit(Next(w, e), limit)
  {
    hide Lower, Turn;
    var x := Next(w, e);
    forall u: User ensures Occupied(x.jobs, x.auth, u) <= limit {
      match e {
        case Scheduled(i, quotas, after) => TurnFills(w.jobs, after, i, w.auth, quotas, limit, u);
        case Created(job) => assert x.jobs[..|w.jobs|] == w.jobs;
        case Changed(i, to) => OccupiedUpdate(w.jobs, i, to, w.auth, u);
        case Reconfigured(auth) => OccupiedSameUsers(w.jobs, w.auth, auth, u);
      }
    }
    if e.Scheduled? { TurnShape(w.jobs, e.after, e.job, w.auth, e.quotas, limit); TurnDynamic(w.jobs, e.after, e.job, w.auth, e.quotas, limit); }
  }

  lemma TurnDynamic(before: seq<Job>, after: seq<Job>, i: nat, auth: Auth, quotas: map<Key, Quota>, limit: nat)
    requires i < |before| && Turn(before, after, i, auth, quotas, limit) && |after| == |before|
    ensures after[i].dynamic == before[i].dynamic
  {
    hide Chosen, RewriteOwner, CurrentAccounts, Free;
  }

  ghost predicate Execution(ws: seq<World>, es: seq<Event>, limit: nat) {
    && |ws| == |es| + 1 && ws[0].jobs == []
    && forall i :: 0 <= i < |es| ==> Possible(ws[i], es[i], limit) && ws[i + 1] == Next(ws[i], es[i])
  }

  /** With dynamic jobs only and fixed user names, no account ever holds more bound, unfinished jobs than its limit. */
  lemma NeverOverLimit(ws: seq<World>, es: seq<Event>, limit: nat, i: nat, u: User)
    requires Execution(ws, es, limit) && i < |ws|
    ensures var jobs, keys := ws[i].jobs, ws[i].auth.keys;
      var holders := set j: nat | j < |jobs|
        && !(jobs[j].dynamic && jobs[j].pending)
        && jobs[j].status !in {Receiving, Assembling, Complete, Failed, Canceled}
        && jobs[j].key in keys && keys[jobs[j].key].username != "" && Lower(keys[jobs[j].key].username) == u;
      |holders| <= limit
  {
    hide Possible, Next, Lower, Occupied;
    AlwaysWithinLimit(ws, es, limit, i);
    OccupiedIsHolders(ws[i].jobs, ws[i].auth, u);
  }

  lemma {:induction false} AlwaysWithinLimit(ws: seq<World>, es: seq<Event>, limit: nat, i: nat)
    requires Execution(ws, es, limit) && i < |ws|
    ensures WithinLimit(ws[i], limit)
  {
    hide Possible, Next;
    if i > 0 {
      AlwaysWithinLimit(ws, es, limit, i - 1);
      StepWithinLimit(ws[i - 1], es[i - 1], limit);
    }
  }
}
