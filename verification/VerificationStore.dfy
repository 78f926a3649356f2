/** The durable verification store shared by all worker processes: one checkpoint per candidate and one
    pacing row per account owner.  Every method is one IMMEDIATE transaction; clocks may differ or jump. */
module VerificationStore {
  import opened Basics
  import opened Options
  import opened Contents

  type Owner = string          // case-folded
  type DirectoryDigest = nat   // content digest of the frozen dataset directory

  datatype Scope = Scope(datasetRef: string, dir: string)
  datatype Binding = Binding(datasetRef: string, version: nat, dir: string, content: DirectoryDigest)

  datatype Checkpoint = Checkpoint(
    binding: Binding, expected: Inventory, verified: Inventory,
    totalFiles: nat, totalBytes: nat, verifiedFiles: nat, verifiedBytes: nat, complete: bool)

  datatype Account = Account(nextRequestAt: real, cooldownUntil: real)

  const INTERVAL := 1.5
  const LONGEST_WAIT := 5.0

  // ---- checkpoints ----

  predicate Within(m: Inventory, expected: Inventory) {
    forall n :: n in m ==> n in expected && m[n] == expected[n]
  }

  /** What load checks of a stored row, and what every transaction keeps. */
  ghost predicate Sound(row: Checkpoint) {
    && Within(row.verified, row.expected)
    && row.totalFiles == |row.expected| && row.totalBytes == Bytes(row.expected)
    && row.verifiedFiles == |row.verified| && row.verifiedBytes == Bytes(row.verified)
    && (row.complete ==> |row.verified| == |row.expected|)
  }

  lemma {:induction false} WithinFull(m: Inventory, expected: Inventory)
    requires Within(m, expected) && |m| == |expected|
    ensures m == expected
    decreases |m|
  {
    if m != map[] {
      var k :| k in m;
      WithinFull(m - {k}, expected - {k});
      assert m == (m - {k})[k := m[k]] && expected == (expected - {k})[k := expected[k]];
    }
  }

  /** Complete means that every expected file has been verified. */
  lemma CompleteMeansAll(row: Checkpoint)
    requires Sound(row) && row.complete
    ensures row.verified == row.expected
  {
    WithinFull(row.verified, row.expected);
  }

  datatype LoadResult = Loaded(verified: Inventory) | ScopeMismatch | Invalid

  class Store {
    var candidates: map<Scope, Checkpoint>
    var accounts: map<Owner, Account>

    constructor ()
      ensures candidates == map[] && accounts == map[]
    {
      candidates, accounts := map[], map[];
    }

    /** A new scope starts empty; a stored one is used only under its own binding and inventory and only if
        its row is sound. */
    method Load(binding: Binding, expected: Inventory) returns (r: LoadResult)
      modifies this`candidates
      ensures var scope := Scope(binding.datasetRef, binding.dir);
        if scope !in old(candidates) then
          && r == Loaded(map[])
          && candidates == old(candidates)[scope := Checkpoint(binding, expected, map[], |expected|, Bytes(expected), 0, 0, false)]
          && Sound(candidates[scope])
        else
          var row := old(candidates)[scope];
          && candidates == old(candidates)
          && (r.Loaded? <==> row.binding == binding && row.expected == expected && Sound(row))
          && (r.Loaded? <==>
                && row.binding == binding && row.expected == expected
                && (forall n :: n in row.verified ==> n in expected && row.verified[n] == expected[n])
                && row.verifiedFiles == |row.verified| && row.verifiedBytes == Bytes(row.verified)
                && row.totalFiles == |expected| && row.totalBytes == Bytes(expected) && (row.complete ==> |row.verified| == |expected|))
          && (r.Loaded? ==> r.verified == row.verified)
          && (r.ScopeMismatch? <==> row.binding != binding || row.expected != expected)
    {
      var scope := Scope(binding.datasetRef, binding.dir);
      var total := SumBytes(expected);
      if scope !in candidates {
        candidates := candidates[scope := Checkpoint(binding, expected, map[], |expected|, total, 0, 0, false)];
        return Loaded(map[]);
      }
      var row := candidates[scope];
      if row.binding != binding || row.expected != expected {
        return ScopeMismatch;
      }
      var bytes := SumBytes(row.verified);
      if (exists n :: n in row.verified && (n !in expected || row.verified[n] != expected[n]))
         || row.verifiedFiles != |row.verified| || row.verifiedBytes != bytes
         || row.totalFiles != |expected| || row.totalBytes != total
         || (row.complete && |row.verified| != |expected|) {
        return Invalid;
      }
      return Loaded(row.verified);
    }

    /** Records one file whose size and digest were checked; any other value is refused. */
    method MarkFile(scope: Scope, name: string, value: Entry) returns (ok: bool)
      requires scope in candidates
      modifies this`candidates
      ensures var row := old(candidates)[scope];
        && (ok <==> name in row.expected && row.expected[name] == value)
        && (!ok ==> candidates == old(candidates))
        && (ok ==> && candidates.Keys == old(candidates).Keys && candidates[scope].verified == row.verified[name := value]
                   && candidates == old(candidates)[scope := candidates[scope]]
                   && candidates[scope].expected == row.expected && candidates[scope].binding == row.binding)
        && (Sound(row) ==> Sound(candidates[scope]))
    {
      var row := candidates[scope];
      if name !in row.expected || row.expected[name] != value {
        return false;
      }
      var verified := row.verified[name := value];
      var bytes := SumBytes(verified);
      if Within(row.verified, row.expected) { MarkedCount(row, name); }
      candidates := candidates[scope := row.(verified := verified, verifiedFiles := |verified|, verifiedBytes := bytes)];
      return true;
    }

    /** Marks a candidate complete only when both counters are; then every expected file is verified. */
    method MarkComplete(scope: Scope) returns (ok: bool)
      modifies this`candidates
      ensures ok <==> scope in old(candidates) && old(candidates)[scope].verifiedFiles == old(candidates)[scope].totalFiles
                      && old(candidates)[scope].verifiedBytes == old(candidates)[scope].totalBytes
      ensures candidates == if ok then old(candidates)[scope := old(candidates)[scope].(complete := true)] else old(candidates)
      ensures ok && Sound(old(candidates)[scope]) ==> Sound(candidates[scope]) && candidates[scope].verified == candidates[scope].expected
    {
      ok := scope in candidates && candidates[scope].verifiedFiles == candidates[scope].totalFiles
            && candidates[scope].verifiedBytes == candidates[scope].totalBytes;
      if ok {
        if |candidates[scope].verified| == |candidates[scope].expected| && Within(candidates[scope].verified, candidates[scope].expected) {
          WithinFull(candidates[scope].verified, candidates[scope].expected);
        }
        candidates := candidates[scope := candidates[scope].(complete := true)];
      }
    }

    /** Grants a slot, or defers while the owner cools down or the queue of slots is too long. */
    method ReserveRequest(owner: Owner, now: real) returns (g: Grant)
      modifies this`accounts
      ensures var (a, r) := Reserve(AccountOf(old(accounts), owner), now);
        g == r && accounts == if g.Granted? then old(accounts)[owner := a] else old(accounts)
      ensures var row := AccountOf(old(accounts), owner);
        && (g.Cooling? <==> now < row.cooldownUntil)
        && (g.Crowded? <==> row.cooldownUntil <= now && now + 5.0 < row.nextRequestAt)
        && (g.Cooling? ==> g.remaining == row.cooldownUntil - now)
        && (!g.Cooling? ==> g.delay == if now < row.nextRequestAt then row.nextRequestAt - now else 0.0)
        && (g.Granted? ==> accounts == old(accounts)[owner := Account(now + g.delay + 1.5, row.cooldownUntil)])
    {
      var row := AccountOf(accounts, owner);
      if row.cooldownUntil > now {
        return Cooling(row.cooldownUntil - now);
      }
      var delay := if row.nextRequestAt > now then row.nextRequestAt - now else 0.0;
      if delay > LONGEST_WAIT {
        return Crowded(delay);
      }
      accounts := accounts[owner := row.(nextRequestAt := now + delay + INTERVAL)];
      return Granted(delay);
    }

    /** Transactions of other processes on the owner's row. */
    method Share(owner: Owner, ops: seq<Op>)
      modifies this`accounts
      ensures accounts == old(accounts)[owner := After(AccountOf(old(accounts), owner), ops)]
    {
      accounts := accounts[owner := After(AccountOf(accounts, owner), ops)];
    }

    method Cooldown(owner: Owner, now: real, seconds: real)
      modifies this`accounts
      ensures accounts == old(accounts)[owner := Cool(AccountOf(old(accounts), owner), now, seconds)]
      ensures var row := AccountOf(old(accounts), owner);
        && accounts[owner].nextRequestAt == row.nextRequestAt
        && accounts[owner].cooldownUntil >= row.cooldownUntil && accounts[owner].cooldownUntil >= now + seconds && accounts[owner].cooldownUntil >= now
        && accounts[owner].cooldownUntil in {row.cooldownUntil, now, now + seconds}
    {
      var until := now + if seconds > 0.0 then seconds else 0.0;
      var row := AccountOf(accounts, owner);
      if row.cooldownUntil < until {
        row := row.(cooldownUntil := until);
      }
      accounts := accounts[owner := row];
    }
  }

  datatype Gate = Sent(reading: nat) | NotSent

  /** The gate in front of every request: it reserves a slot, waits for it on the monotonic clock whose i-th
      reading is mono(i), while other processes run `others` on the same row, and looks at the cooldown again. */
  method BeforeRequest(store: Store, owner: Owner, now: real, mono: nat -> real, ghost enough: nat, deadline: Option<real>,
                       others: seq<Op>, later: real) returns (r: Gate)
    requires enough > 1 && mono(enough) >= mono(1) + LONGEST_WAIT
    modifies store`accounts
    ensures var (a, g) := Reserve(AccountOf(old(store.accounts), owner), now);
      && (g.Granted? ==> AccountOf(store.accounts, owner) == a || AccountOf(store.accounts, owner) == After(a, others))
      && (r.Sent? ==> g.Granted? && mono(r.reading) >= mono(1) + g.delay
                      && AccountOf(store.accounts, owner) == After(a, others) && After(a, others).cooldownUntil <= later
                      && (deadline.Some? ==> mono(0) + g.delay < deadline.value))
      && (!g.Granted? ==> store.accounts == old(store.accounts))
      && (r.Sent? <==> g.Granted? && (deadline.Some? ==> mono(0) + g.delay < deadline.value) && After(a, others).cooldownUntil <= later)
  {
    var grant := store.ReserveRequest(owner, now);
    if !grant.Granted? {
      return NotSent;
    }
    if deadline.Some? && mono(0) + grant.delay >= deadline.value {
      return NotSent;
    }
    var until := mono(1) + grant.delay;
    var i := 2;
    while mono(i) < until
      invariant i <= enough
      decreases enough - i
    {
      i := i + 1;
    }
    store.Share(owner, others);
    if AccountOf(store.accounts, owner).cooldownUntil > later {
      return NotSent;
    }
    return Sent(i);
  }

  lemma MarkedCount(row: Checkpoint, name: string)
    requires Within(row.verified, row.expected) && name in row.expected
    ensures Within(row.verified[name := row.expected[name]], row.expected)
    ensures |row.verified| == |row.expected| ==> |row.verified[name := row.expected[name]]| == |row.expected|
  {
    if |row.verified| == |row.expected| {
      WithinFull(row.verified, row.expected);
      assert row.verified[name := row.expected[name]] == row.verified;
    }
  }

  // ---- pacing ----

  datatype Grant = Granted(delay: real) | Cooling(remaining: real) | Crowded(delay: real)

  function AccountOf(accounts: map<Owner, Account>, owner: Owner): Account {
    if owner in accounts then accounts[owner] else Account(0.0, 0.0)
  }

  function Reserve(a: Account, now: real): (Account, Grant) {
    var delay := Max(0.0, a.nextRequestAt - now);
    if a.cooldownUntil > now then (a, Cooling(a.cooldownUntil - now))
    else if delay > LONGEST_WAIT then (a, Crowded(delay))
    else (a.(nextRequestAt := now + delay + INTERVAL), Granted(delay))
  }

  function Cool(a: Account, now: real, seconds: real): Account {
    a.(cooldownUntil := Max(a.cooldownUntil, now + Max(0.0, seconds)))
  }

  /** The transactions on one owner's row, in commit order, each with its own process's clock. */
  datatype Op = Request(now: real) | SetCooldown(now: real, seconds: real)

  function Apply(a: Account, op: Op): Account {
    match op
    case Request(now) => Reserve(a, now).0
    case SetCooldown(now, seconds) => Cool(a, now, seconds)
  }

  function After(a: Account, ops: seq<Op>): Account {
    if ops == [] then a else Apply(After(a, ops[..|ops| - 1]), ops[|ops| - 1])
  }

  /** The instants at which the granted requests may be sent, in commit order. */
  function Slots(a: Account, ops: seq<Op>): seq<real> {
    if ops == [] then []
    else
      var n := |ops| - 1;
      var op := ops[n];
      Slots(a, ops[..n]) +
      if op.Request? && Reserve(After(a, ops[..n]), op.now).1.Granted? then [op.now + Reserve(After(a, ops[..n]), op.now).1.delay] else []
  }

  lemma {:induction false} SlotsBeforeNext(a: Account, ops: seq<Op>)
    ensures forall i :: 0 <= i < |Slots(a, ops)| ==> Slots(a, ops)[i] + INTERVAL <= After(a, ops).nextRequestAt
    ensures forall i, k :: 0 <= i < k < |Slots(a, ops)| ==> Slots(a, ops)[i] + INTERVAL <= Slots(a, ops)[k]
  {
    if ops != [] {
      SlotsBeforeNext(a, ops[..|ops| - 1]);
    }
  }

  /** Any two requests of one owner are at least 1.5 seconds apart, for every interleaving of processes
      and every reading of their clocks. */
  lemma SlotsApart(a: Account, ops: seq<Op>, i: nat, k: nat)
    requires i < k < |Slots(a, ops)|
    ensures Slots(a, ops)[i] + INTERVAL <= Slots(a, ops)[k]
  {
    SlotsBeforeNext(a, ops);
  }

  function InWindow(slots: seq<real>, from: real, length: real): nat {
    if slots == [] then 0
    else
      var last := slots[|slots| - 1];
      InWindow(slots[..|slots| - 1], from, length) + if from <= last <= from + length then 1 else 0
  }

  lemma {:induction false} SpacedWindow(slots: seq<real>, from: real, length: real)
    requires length >= 0.0
    requires forall i, k :: 0 <= i < k < |slots| ==> slots[i] + INTERVAL <= slots[k]
    ensures var n := InWindow(slots, from, length);
      && (n > 0 ==> slots != [] && slots[|slots| - 1] >= from + INTERVAL * (n - 1) as real)
      && (n > 0 ==> INTERVAL * (n - 1) as real <= length)
  {
    if slots != [] {
      SpacedWindow(slots[..|slots| - 1], from, length);
    }
  }

  /** A window of T seconds holds at most floor(T / 1.5) + 1 requests. */
  lemma RequestsPerWindow(a: Account, ops: seq<Op>, from: real, length: real)
    requires length >= 0.0
    ensures InWindow(Slots(a, ops), from, length) <= (length / INTERVAL).Floor + 1
  {
    SlotsBeforeNext(a, ops);
    SpacedWindow(Slots(a, ops), from, length);
    var n := InWindow(Slots(a, ops), from, length);
    if n > 0 {
      assert (n - 1) as real <= length / INTERVAL;
    }
  }

  lemma {:induction false} CooldownNeverShrinks(a: Account, ops: seq<Op>, more: seq<Op>)
    ensures After(a, ops).cooldownUntil <= After(a, ops + more).cooldownUntil
    decreases |more|
  {
    if more == [] {
      assert ops + more == ops;
    } else {
      CooldownNeverShrinks(a, ops, more[..|more| - 1]);
      assert (ops + more)[..|ops + more| - 1] == ops + more[..|more| - 1];
    }
  }

  /** After a server asked for a pause of the given length, no later transaction whose clock still reads
      inside the pause grants a slot, and no other write shortens it. */
  lemma NoSlotDuringCooldown(a: Account, ops: seq<Op>, now: real, seconds: real, more: seq<Op>, later: real)
    requires later < now + seconds
    ensures !Reserve(After(a, ops + [SetCooldown(now, seconds)] + more), later).1.Granted?
  {
    var cooled := ops + [SetCooldown(now, seconds)];
    assert cooled[..|cooled| - 1] == ops;
    CooldownNeverShrinks(a, cooled, more);
  }
}
