/** The per-dataset submission locks: a table of reference-counted locks under one guard. */
module SubmissionLock {
  import opened Options
  import KaggleRefs

  type Thread = nat
  type Key = string
  type LockId = nat        // identity of a lock object

  datatype Stage = Waiting | Holding | Leaving
  datatype Use = Use(key: Key, entry: LockId, stage: Stage)

  datatype State = State(
    table: map<Key, LockId>,
    counts: map<LockId, int>,            // entry[1] of every lock object made so far
    holders: map<LockId, Option<Thread>>,
    uses: map<Thread, Use>,              // threads inside the context manager
    made: nat)

  function KeyOf(datasetRef: string): Key {
    KaggleRefs.Lower(KaggleRefs.Strip(datasetRef))
  }

  /** Two references share a lock exactly when, without the blanks around them, they are spelled alike up to case. */
  lemma SameLock(a: string, b: string)
    ensures var s, t := KaggleRefs.Strip(a), KaggleRefs.Strip(b);
      KeyOf(a) == KeyOf(b) <==> |s| == |t| && forall i :: 0 <= i < |s| ==> KaggleRefs.SameLetter(s[i], t[i])
  {
    KaggleRefs.LowerMeans(KaggleRefs.Strip(a), KaggleRefs.Strip(b));
  }

  function Count(s: State, e: LockId): int {
    if e in s.counts then s.counts[e] else 0
  }

  function Holder(s: State, e: LockId): Option<Thread> {
    if e in s.holders then s.holders[e] else None
  }

  /** Under the guard: find or make the key's lock and count this thread. */
  function Enter(s: State, t: Thread, key: Key): State {
    if key in s.table then
      var e := s.table[key];
      s.(counts := s.counts[e := Count(s, e) + 1], uses := s.uses[t := Use(key, e, Waiting)])
    else
      State(s.table[key := s.made], s.counts[s.made := 1], s.holders[s.made := None], s.uses[t := Use(key, s.made, Waiting)], s.made + 1)
  }

  /** acquire succeeds only on a free lock. */
  function Acquire(s: State, t: Thread): State
    requires t in s.uses
  {
    var u := s.uses[t];
    if Holder(s, u.entry).Some? then s
    else s.(holders := s.holders[u.entry := Some(t)], uses := s.uses[t := u.(stage := Holding)])
  }

  /** The finally block's first half: release if acquired, whether the body ended or the wait was interrupted. */
  function Release(s: State, t: Thread): State
    requires t in s.uses
  {
    var u := s.uses[t];
    s.(holders := if u.stage.Holding? then s.holders[u.entry := None] else s.holders, uses := s.uses[t := u.(stage := Leaving)])
  }

  /** Its second half, under the guard: uncount, and drop an entry nobody uses. */
  function Leave(s: State, t: Thread): State
    requires t in s.uses
  {
    var u := s.uses[t];
    var n := Count(s, u.entry) - 1;
    s.(counts := s.counts[u.entry := n], uses := s.uses - {t},
       table := if n == 0 && u.key in s.table && s.table[u.key] == u.entry then s.table - {u.key} else s.table)
  }

  class LockTable {
    var table: map<Key, LockId>
    var counts: map<LockId, int>
    var holders: map<LockId, Option<Thread>>
    var uses: map<Thread, Use>
    var made: nat

    function Now(): State
      reads this
    {
      State(table, counts, holders, uses, made)
    }

    constructor ()
      ensures Now() == State(map[], map[], map[], map[], 0)
    {
      table, counts, holders, uses, made := map[], map[], map[], map[], 0;
    }

    method EnterLock(t: Thread, datasetRef: string)
      modifies this
      ensures Now() == Enter(old(Now()), t, KeyOf(datasetRef))
      ensures t in uses && uses[t].key == KeyOf(datasetRef) && uses[t].stage == Waiting
      ensures KeyOf(datasetRef) in table && uses[t].entry == table[KeyOf(datasetRef)]
    {
      var key := KeyOf(datasetRef);
      if key !in table {
        table := table[key := made];
        counts := counts[made := 0];
        holders := holders[made := None];
        made := made + 1;
      }
      var e := table[key];
      counts := counts[e := (if e in counts then counts[e] else 0) + 1];
      uses := uses[t := Use(key, e, Waiting)];
      assert counts == Enter(old(Now()), t, key).counts;
    }

    method AcquireLock(t: Thread) returns (acquired: bool)
      requires t in uses
      modifies this
      ensures Now() == Acquire(old(Now()), t)
      ensures acquired <==> Holder(old(Now()), old(uses)[t].entry).None?
      ensures acquired ==> Holder(Now(), old(uses)[t].entry) == Some(t) && t in uses && uses[t] == old(uses)[t].(stage := Holding)
      ensures !acquired ==> Now() == old(Now())
    {
      var u := uses[t];
      acquired := !(u.entry in holders && holders[u.entry].Some?);
      if acquired {
        holders := holders[u.entry := Some(t)];
        uses := uses[t := u.(stage := Holding)];
      }
    }

    method LeaveLock(t: Thread)
      requires t in uses
      modifies this
      ensures Now() == Leave(Release(old(Now()), t), t)
      ensures uses == old(uses) - {t}
      ensures forall e: LockId :: Holder(Now(), e) == if e == old(uses)[t].entry && old(uses)[t].stage.Holding? then None else Holder(old(Now()), e)
    {
      var u := uses[t];
      if u.stage.Holding? {
        holders := holders[u.entry := None];
      }
      var n := (if u.entry in counts then counts[u.entry] else 0) - 1;
      counts := counts[u.entry := n];
      if n == 0 && u.key in table && table[u.key] == u.entry {
        table := table - {u.key};
      }
      uses := uses - {t};
      assert uses == Leave(Release(old(Now()), t), t).uses;
    }
  }

  // ---- what every interleaving keeps ----

  function Users(uses: map<Thread, Use>, e: LockId): set<Thread> {
    set t | t in uses && uses[t].entry == e
  }

  predicate EntryOk(s: State, e: LockId) {
    && Count(s, e) == |Users(s.uses, e)|
    && (Holder(s, e).Some? ==> Holder(s, e).value in s.uses && s.uses[Holder(s, e).value] == Use(s.uses[Holder(s, e).value].key, e, Holding))
    && (e >= s.made ==> Users(s.uses, e) == {} && Holder(s, e) == None)
  }

  /** Every thread's entry is the one its key still has, and it holds that lock when it is inside. */
  predicate UseOk(s: State, t: Thread)
    requires t in s.uses
  {
    var u := s.uses[t];
    && u.key in s.table && s.table[u.key] == u.entry
    && (u.stage.Holding? ==> Holder(s, u.entry) == Some(t))
  }

  predicate TableOk(s: State) {
    && (forall k :: k in s.table ==> s.table[k] < s.made && Users(s.uses, s.table[k]) != {})
    && (forall k, l :: k in s.table && l in s.table && s.table[k] == s.table[l] ==> k == l)
  }

  ghost predicate Inv(s: State) {
    && (forall e: LockId :: e < s.made ==> e in s.holders)
    && (forall e: LockId :: EntryOk(s, e))
    && (forall t :: t in s.uses ==> UseOk(s, t))
    && TableOk(s)
  }

  lemma UsersWith(uses: map<Thread, Use>, t: Thread, u: Use, e: LockId)
    requires t in uses ==> uses[t].entry == u.entry
    ensures Users(uses[t := u], e) == if e == u.entry then Users(uses, e) + {t} else Users(uses, e)
    ensures t !in uses ==> t !in Users(uses, e)
    ensures t in uses ==> Users(uses[t := u], e) == Users(uses, e)
  {
  }

  lemma UsersWithout(uses: map<Thread, Use>, t: Thread, e: LockId)
    requires t in uses
    ensures Users(uses - {t}, e) == if e == uses[t].entry then Users(uses, e) - {t} else Users(uses, e)
    ensures t in Users(uses, uses[t].entry)
  {
  }

  lemma EnterInv(s: State, t: Thread, key: Key)
    requires Inv(s) && t !in s.uses
    ensures Inv(Enter(s, t, key))
  {
    hide Users, EntryOk, UseOk, TableOk;
    var s' := Enter(s, t, key);
    forall e: LockId ensures EntryOk(s', e) { EnterEntry(s, t, key, e); }
    forall x | x in s'.uses ensures UseOk(s', x) {
      if x == t { EnterUse(s, t, key); } else { EnterKeepsUse(s, t, key, x); }
    }
    assert TableOk(s') by { EnterTable(s, t, key); }
    assert forall e: LockId :: e < s'.made ==> e in s'.holders;
  }

  lemma EnterEntry(s: State, t: Thread, key: Key, e: LockId)
    requires Inv(s) && t !in s.uses
    ensures EntryOk(Enter(s, t, key), e)
  {
    hide Users, UseOk;
    var s' := Enter(s, t, key);
    assert EntryOk(s, e);
    UsersWith(s.uses, t, s'.uses[t], e);
    if key in s.table { assert s.table[key] < s.made; }
  }

  lemma EnterUse(s: State, t: Thread, key: Key)
    requires Inv(s) && t !in s.uses
    ensures UseOk(Enter(s, t, key), t)
  {
    hide Users, EntryOk;
  }

  lemma EnterKeepsUse(s: State, t: Thread, key: Key, x: Thread)
    requires Inv(s) && t !in s.uses && x in s.uses && x != t
    ensures x in Enter(s, t, key).uses && UseOk(Enter(s, t, key), x)
  {
    hide Users, EntryOk;
    assert UseOk(s, x);
  }

  lemma EnterTable(s: State, t: Thread, key: Key)
    requires Inv(s) && t !in s.uses
    ensures TableOk(Enter(s, t, key))
  {
    hide Users, EntryOk, UseOk;
    var s' := Enter(s, t, key);
    forall k | k in s'.table ensures s'.table[k] < s'.made && Users(s'.uses, s'.table[k]) != {} {
      UsersWith(s.uses, t, s'.uses[t], s'.table[k]);
    }
  }

  /** Stages and the holder of one entry change; the table and the users do not. */
  lemma StageInv(s: State, t: Thread, stage: Stage, holder: Option<Thread>)
    requires Inv(s) && t in s.uses
    requires stage.Holding? ==> Holder(s, s.uses[t].entry).None? && holder == Some(t)
    requires !stage.Holding? ==> holder == if s.uses[t].stage.Holding? then None else Holder(s, s.uses[t].entry)
    ensures Inv(s.(holders := s.holders[s.uses[t].entry := holder], uses := s.uses[t := s.uses[t].(stage := stage)]))
  {
    hide Users;
    var u := s.uses[t];
    var s' := s.(holders := s.holders[u.entry := holder], uses := s.uses[t := u.(stage := stage)]);
    assert UseOk(s, t);
    forall e: LockId ensures EntryOk(s', e) {
      assert EntryOk(s, e);
      UsersWith(s.uses, t, u.(stage := stage), e);
    }
    forall x | x in s'.uses ensures UseOk(s', x) {
      assert UseOk(s, x);
    }
    forall k | k in s'.table ensures Users(s'.uses, s'.table[k]) != {} {
      UsersWith(s.uses, t, u.(stage := stage), s'.table[k]);
    }
  }

  lemma AcquireInv(s: State, t: Thread)
    requires Inv(s) && t in s.uses && s.uses[t].stage.Waiting?
    ensures Inv(Acquire(s, t))
  {
    hide Inv;
    if Holder(s, s.uses[t].entry).None? { StageInv(s, t, Holding, Some(t)); }
  }

  lemma ReleaseInv(s: State, t: Thread)
    requires Inv(s) && t in s.uses && !s.uses[t].stage.Leaving?
    ensures Inv(Release(s, t))
  {
    hide Inv;
    var u := s.uses[t];
    StageInv(s, t, Leaving, if u.stage.Holding? then None else Holder(s, u.entry));
    if !u.stage.Holding? {
      assert u.entry in s.holders by { EntryMade(s, t); }
      assert s.holders[u.entry := Holder(s, u.entry)] == s.holders;
    }
  }

  lemma EntryMade(s: State, t: Thread)
    requires Inv(s) && t in s.uses
    ensures s.uses[t].entry in s.holders
  {
    assert UseOk(s, t);
  }

  lemma LeaveInv(s: State, t: Thread)
    requires Inv(s) && t in s.uses && s.uses[t].stage.Leaving?
    ensures Inv(Leave(s, t))
  {
    hide Users;
    var s', u := Leave(s, t), s.uses[t];
    assert UseOk(s, t);
    forall e: LockId ensures EntryOk(s', e) {
      assert EntryOk(s, e);
      UsersWithout(s.uses, t, e);
    }
    forall x | x in s'.uses ensures UseOk(s', x) {
      LeaveKeepsUse(s, t, x);
    }
    assert TableOk(s') by { LeaveTable(s, t); }
  }

  /** While another thread uses the same key the count stays positive, so the entry is kept. */
  lemma LeaveKeepsUse(s: State, t: Thread, x: Thread)
    requires Inv(s) && t in s.uses && s.uses[t].stage.Leaving? && x in s.uses && x != t
    ensures x in Leave(s, t).uses && UseOk(Leave(s, t), x)
  {
    assert UseOk(s, x) && UseOk(s, t) && EntryOk(s, s.uses[t].entry);
    if s.uses[x].key == s.uses[t].key {
      assert {t, x} <= Users(s.uses, s.uses[t].entry);
      TwoUsers(Users(s.uses, s.uses[t].entry), t, x);
    }
  }

  lemma TwoUsers(users: set<Thread>, t: Thread, x: Thread)
    requires t in users && x in users && t != x
    ensures |users| >= 2
  {
    assert |users - {t}| >= 1 by { assert x in users - {t}; }
  }

  lemma LeaveTable(s: State, t: Thread)
    requires Inv(s) && t in s.uses && s.uses[t].stage.Leaving?
    ensures TableOk(Leave(s, t))
  {
    hide Users;
    var s', u := Leave(s, t), s.uses[t];
    assert UseOk(s, t) && EntryOk(s, u.entry);
    forall k | k in s'.table ensures Users(s'.uses, s'.table[k]) != {} {
      UsersWithout(s.uses, t, s'.table[k]);
      if s'.table[k] == u.entry {
        assert k == u.key && Count(s, u.entry) != 1;
        assert |Users(s.uses, u.entry) - {t}| == |Users(s.uses, u.entry)| - 1;
      }
    }
  }

  // ---- runs ----

  datatype Event = Enters(t: Thread, key: Key) | Tries(t: Thread) | Ends(t: Thread) | Leaves(t: Thread)

  predicate Possible(s: State, e: Event) {
    match e
    case Enters(t, _) => t !in s.uses
    case Tries(t) => t in s.uses && s.uses[t].stage.Waiting?
    case Ends(t) => t in s.uses && !s.uses[t].stage.Leaving?      // the body ended, or a shutdown interrupted the wait
    case Leaves(t) => t in s.uses && s.uses[t].stage.Leaving?
  }

  function Next(s: State, e: Event): State
    requires Possible(s, e)
  {
    match e
    case Enters(t, key) => Enter(s, t, key)
    case Tries(t) => Acquire(s, t)
    case Ends(t) => Release(s, t)
    case Leaves(t) => Leave(s, t)
  }

  ghost predicate Execution(ss: seq<State>, es: seq<Event>) {
    && |ss| == |es| + 1 && ss[0] == State(map[], map[], map[], map[], 0)
    && forall i :: 0 <= i < |es| ==> Possible(ss[i], es[i]) && ss[i + 1] == Next(ss[i], es[i])
  }

  lemma {:induction false} AlwaysInv(ss: seq<State>, es: seq<Event>, i: nat)
    requires Execution(ss, es) && i < |ss|
    ensures Inv(ss[i])
  {
    hide Inv, Enter, Acquire, Release, Leave;
    if i == 0 {
      EmptyInv();
    } else {
      AlwaysInv(ss, es, i - 1);
      match es[i - 1] {
        case Enters(t, key) => EnterInv(ss[i - 1], t, key);
        case Tries(t) => AcquireInv(ss[i - 1], t);
        case Ends(t) => ReleaseInv(ss[i - 1], t);
        case Leaves(t) => LeaveInv(ss[i - 1], t);
      }
    }
  }

  lemma EmptyInv()
    ensures Inv(State(map[], map[], map[], map[], 0))
  {
    var s := State(map[], map[], map[], map[], 0);
    forall e: LockId ensures EntryOk(s, e) {
      assert Users(s.uses, e) == {};
    }
  }

  /** In every interleaving at most one thread is inside the lock of a dataset, although entries are dropped and made
      again; the table holds exactly the keys in use, so it is empty when no thread is left. */
  lemma OneSubmissionPerDataset(ss: seq<State>, es: seq<Event>, i: nat, t: Thread, u: Thread)
    requires Execution(ss, es) && i < |ss|
    ensures var s := ss[i];
      && (t in s.uses && u in s.uses && s.uses[t].stage.Holding? && s.uses[u].stage.Holding? && s.uses[t].key == s.uses[u].key ==> t == u)
      && (forall k :: k in s.table <==> exists x :: x in s.uses && s.uses[x].key == k)
  {
    AlwaysInv(ss, es, i);
    var s := ss[i];
    assert forall x :: x in s.uses ==> UseOk(s, x);
    forall k | k in s.table ensures exists x :: x in s.uses && s.uses[x].key == k {
      var x :| x in Users(s.uses, s.table[k]);
      assert UseOk(s, x);
      assert s.uses[x].key in s.table && s.table[s.uses[x].key] == s.table[k];
    }
  }
}
