/** The DINO threshold policy: every import of the bootstrap's run function, at any depth, is followed by a wrapper,
    and the policy's own statements are put at the head of the module. */
module DinoPolicy {
  import opened Options
  import opened PythonAst

  const BOOTSTRAP := "patchcore_dino_runtime.kaggle_bootstrap"
  const WRAP := "_relay_dino_wrap_run"
  const WORKER_SOURCE := "_RELAY_DINO_WORKER_SOURCE"

  // ---- the wrapper rewrite ----

  function Bound(a: Alias): string {
    if a.asname.Some? then a.asname.value else a.name
  }

  /** name = _relay_dino_wrap_run(name) */
  function Wrapper(name: string): Tree {
    Assign([To(name)], Call(Name(WRAP), [Name(name)], []))
  }

  predicate IsWrapper(t: Tree) {
    && t.Assign? && |t.targets| == 1 && t.targets[0].To?
    && t.right == Call(Name(WRAP), [Name(t.targets[0].id)], [])
  }

  predicate IsBootstrap(t: Tree) {
    t.ImportFrom? && t.level == 0 && t.source == BOOTSTRAP
  }

  function WrappersOf(names: seq<Alias>): seq<Tree> {
    if names == [] then []
    else
      var last := names[|names| - 1];
      WrappersOf(names[..|names| - 1]) + if last.name == "run" then [Wrapper(Bound(last))] else []
  }

  /** What one statement becomes in its list: an old wrapper vanishes, a bootstrap import gets its wrappers. */
  function Visit(t: Tree): seq<Tree>
    decreases t, 1
  {
    if IsWrapper(t) then []
    else if IsBootstrap(t) then [t] + WrappersOf(t.names)
    else [Inside(t)]
  }

  /** The same statement with its nested statement lists rewritten. */
  function Inside(t: Tree): Tree
    decreases t, 0
  {
    match t
    case Block(items) => Block(VisitAll(items, |items|))
    case Node(kind, ch) => Node(kind, seq(|ch|, i requires 0 <= i < |ch| => Inside(ch[i])))
    case Attribute(v, a) => Attribute(Inside(v), a)
    case Call(f, args, kws) =>
      Call(Inside(f), seq(|args|, i requires 0 <= i < |args| => Inside(args[i])),
           seq(|kws|, i requires 0 <= i < |kws| => Keyword(kws[i].arg, Inside(kws[i].value))))
    case ExprStmt(e) => ExprStmt(Inside(e))
    case _ => t                       // assignments and imports are not looked into
  }

  function VisitAll(items: seq<Tree>, n: nat): seq<Tree>
    requires n <= |items|
    decreases items, 2, n
  {
    if n == 0 then [] else VisitAll(items, n - 1) + Visit(items[n - 1])
  }

  function Rewritten(body: seq<Tree>): seq<Tree> {
    VisitAll(body, |body|)
  }

  /** How often the transformer counts a match: imported names called run, anywhere. */
  function Runs(names: seq<Alias>): nat {
    if names == [] then 0 else Runs(names[..|names| - 1]) + if names[|names| - 1].name == "run" then 1 else 0
  }

  /** Statement k wraps the imported function under the name the import binds: its alias if it has one. */
  predicate WrapsAlias(body: seq<Tree>, k: nat, a: Alias) {
    && k < |body|
    && (a.asname.Some? ==> body[k] == Assign([To(a.asname.value)], Call(Name(WRAP), [Name(a.asname.value)], [])))
    && (a.asname.None? ==> body[k] == Assign([To(a.name)], Call(Name(WRAP), [Name(a.name)], [])))
  }

  /** The wrappers follow the order of the imported names. */
  lemma {:induction false} WrapperOfAlias(names: seq<Alias>, i: nat)
    requires i < |names| && names[i].name == "run"
    ensures |WrappersOf(names)| == Runs(names) && WrapsAlias(WrappersOf(names), Runs(names[..i]), names[i])
  {
    var n := |names| - 1;
    WrapperCount(names);
    WrapperCount(names[..n]);
    if i < n {
      WrapperOfAlias(names[..n], i);
      assert names[..n][..i] == names[..i];
    }
  }

  lemma {:induction false} WrapperCount(names: seq<Alias>)
    ensures |WrappersOf(names)| == Runs(names)
  {
    if names != [] { WrapperCount(names[..|names| - 1]); }
  }

  /** The transformer object: it rewrites one import and counts its matches. */
  class WrapBootstrap {
    var matches: nat

    constructor ()
      ensures matches == 0
    {
      matches := 0;
    }

    method VisitImportFrom(t: Tree) returns (r: seq<Tree>)
      requires t.ImportFrom?
      modifies this
      ensures r == if IsBootstrap(t) then [t] + WrappersOf(t.names) else [t]
      ensures matches == old(matches) + if IsBootstrap(t) then Runs(t.names) else 0
      ensures IsBootstrap(t) ==> matches - old(matches) == |r| - 1
      ensures t.level == 0 && t.source == BOOTSTRAP ==> r[0] == t && forall i :: 0 <= i < |t.names| && t.names[i].name == "run" ==> WrapsAlias(r, 1 + Runs(t.names[..i]), t.names[i])
    {
      if t.level != 0 || t.source != BOOTSTRAP {
        return [t];
      }
      var additions: seq<Tree> := [];
      for i := 0 to |t.names|
        invariant additions == WrappersOf(t.names[..i])
        invariant matches == old(matches) + Runs(t.names[..i]) && |additions| == Runs(t.names[..i])
      {
        assert t.names[..i + 1][..i] == t.names[..i];
        if t.names[i].name == "run" {
          matches := matches + 1;
          additions := additions + [Wrapper(Bound(t.names[i]))];
        }
      }
      assert t.names[..|t.names|] == t.names;
      r := [t] + additions;
      forall i | 0 <= i < |t.names| && t.names[i].name == "run" ensures WrapsAlias(r, 1 + Runs(t.names[..i]), t.names[i]) {
        WrapperOfAlias(t.names, i);
      }
    }
  }

  lemma {:induction false} WrappersAreWrappers(names: seq<Alias>)
    ensures forall i :: 0 <= i < |WrappersOf(names)| ==> IsWrapper(WrappersOf(names)[i])
  {
    if names != [] { WrappersAreWrappers(names[..|names| - 1]); }
  }

  lemma {:induction false} VisitAllConcat(a: seq<Tree>, b: seq<Tree>, n: nat)
    requires n <= |b|
    ensures VisitAll(a + b, |a| + n) == VisitAll(a, |a|) + VisitAll(b, n)
    decreases n
  {
    if n == 0 {
      VisitAllPrefix(a, b, |a|);
    } else {
      VisitAllConcat(a, b, n - 1);
      assert (a + b)[|a| + n - 1] == b[n - 1];
      assert VisitAll(b, n) == VisitAll(b, n - 1) + Visit(b[n - 1]);
    }
  }

  lemma {:induction false} VisitAllPrefix(a: seq<Tree>, b: seq<Tree>, n: nat)
    requires n <= |a|
    ensures VisitAll(a + b, n) == VisitAll(a, n)
  {
    if n > 0 {
      VisitAllPrefix(a, b, n - 1);
      assert (a + b)[n - 1] == a[n - 1];
    }
  }

  lemma {:induction false} VisitAllNothing(items: seq<Tree>, n: nat)
    requires n <= |items| && forall i :: 0 <= i < n ==> Visit(items[i]) == []
    ensures VisitAll(items, n) == []
  {
    if n > 0 { VisitAllNothing(items, n - 1); }
  }

  /** Rewriting the outcome of one statement gives the same outcome again. */
  lemma {:induction false} VisitTwice(t: Tree)
    ensures VisitAll(Visit(t), |Visit(t)|) == Visit(t)
    decreases t, 1
  {
    if IsWrapper(t) {
    } else if IsBootstrap(t) {
      var ws := WrappersOf(t.names);
      WrappersAreWrappers(t.names);
      VisitAllNothing(ws, |ws|);
      VisitAllConcat([t], ws, |ws|);
      VisitOne(t);
    } else {
      InsideTwice(t);
      InsideKind(t);
      VisitOne(Inside(t));
    }
  }

  lemma VisitOne(t: Tree)
    ensures VisitAll([t], 1) == Visit(t)
  {
    assert VisitAll([t], 0) == [];
  }

  lemma InsideKind(t: Tree)
    ensures IsWrapper(Inside(t)) <==> IsWrapper(t)
    ensures IsBootstrap(Inside(t)) <==> IsBootstrap(t)
    ensures t.Assign? || t.ImportFrom? ==> Inside(t) == t
  {
  }

  lemma {:induction false} InsideTwice(t: Tree)
    ensures Inside(Inside(t)) == Inside(t)
    decreases t, 0
  {
    match t {
      case Block(items) => VisitAllTwice(items, |items|);
      case Node(kind, ch) =>
        forall i | 0 <= i < |ch| ensures Inside(Inside(ch[i])) == Inside(ch[i]) { InsideTwice(ch[i]); }
        assert Inside(Inside(t)).children == Inside(t).children;
      case Attribute(v, a) => InsideTwice(v);
      case Call(f, args, kws) =>
        InsideTwice(f);
        forall i | 0 <= i < |args| ensures Inside(Inside(args[i])) == Inside(args[i]) { InsideTwice(args[i]); }
        forall i | 0 <= i < |kws| ensures Inside(Inside(kws[i].value)) == Inside(kws[i].value) { InsideTwice(kws[i].value); }
        assert Inside(Inside(t)).args == Inside(t).args && Inside(Inside(t)).keywords == Inside(t).keywords;
      case ExprStmt(e) => InsideTwice(e);
      case _ =>
    }
  }

  lemma {:induction false} VisitAllTwice(items: seq<Tree>, n: nat)
    requires n <= |items|
    ensures var v := VisitAll(items, n); VisitAll(v, |v|) == v
    decreases items, 2, n
  {
    if n > 0 {
      VisitAllTwice(items, n - 1);
      VisitTwice(items[n - 1]);
      var a, b := VisitAll(items, n - 1), Visit(items[n - 1]);
      VisitAllConcat(a, b, |b|);
    }
  }

  // ---- the previous overlay ----

  /** `overlay` is the one previous overlay whose digest is known; its second statement assigns the worker source, which
      carries that digest.  Another assignment with the old header and footer but other text was tampered with. */
  datatype Legacy = Legacy(overlay: seq<Tree>, tampered: set<Tree>)

  predicate LegacyOk(l: Legacy) {
    && |l.overlay| > 1 && IsSource(l.overlay[1]) && l.overlay[1] !in l.tampered
    && (forall t :: t in l.tampered ==> IsSource(t))
    && (forall i :: 0 <= i < |l.overlay| && i != 1 ==> !IsSource(l.overlay[i]))
  }

  predicate IsSource(t: Tree) {
    t.Assign? && |t.targets| == 1 && t.targets[0] == To(WORKER_SOURCE) && t.right.Text?
  }

  /** An assignment that claims to be the old overlay's worker source. */
  predicate Claims(l: Legacy, t: Tree) {
    (|l.overlay| > 1 && t == l.overlay[1]) || t in l.tampered
  }

  /** The first claiming statement at or after n, or |body|. */
  function FirstClaim(l: Legacy, body: seq<Tree>, n: nat): (i: nat)
    requires n <= |body|
    ensures n <= i <= |body| && (i < |body| ==> Claims(l, body[i])) && forall k :: n <= k < i ==> !Claims(l, body[k])
    decreases |body| - n
  {
    if n == |body| || Claims(l, body[n]) then n else FirstClaim(l, body, n + 1)
  }

  /** Removes the previous overlay; None where it is incomplete or modified. */
  function RemoveLegacy(l: Legacy, body: seq<Tree>): Option<seq<Tree>> {
    var i := FirstClaim(l, body, 0);
    if i == |body| then Some(body)
    else if i == 0 || body[i] in l.tampered || i - 1 + |l.overlay| > |body| || body[i - 1..i - 1 + |l.overlay|] != l.overlay then None
    else Some(body[..i - 1] + body[i - 1 + |l.overlay|..])
  }

  /** Removal takes out the overlay that starts at the statement before the first claim, whole and unchanged. */
  lemma OverlayRemoved(l: Legacy, body: seq<Tree>)
    requires LegacyOk(l)
    ensures (forall t :: t in body ==> !Claims(l, t)) ==> RemoveLegacy(l, body) == Some(body)
    ensures forall a, b :: body == a + l.overlay + b && (forall t :: t in a ==> !Claims(l, t)) ==> RemoveLegacy(l, body) == Some(a + b)
    ensures RemoveLegacy(l, body).Some? && RemoveLegacy(l, body).value != body ==> WasOverlay(l, body, RemoveLegacy(l, body).value)
  {
    hide RemoveLegacy, Claims, LegacyOk;
    if forall t :: t in body ==> !Claims(l, t) { NothingRemoved(l, body); }
    forall a, b | body == a + l.overlay + b && forall t :: t in a ==> !Claims(l, t) ensures RemoveLegacy(l, body) == Some(a + b) {
      FirstRemoved(l, a, b);
    }
    if RemoveLegacy(l, body).Some? && RemoveLegacy(l, body).value != body { RemovedWas(l, body); }
  }

  /** body is rest with the overlay in it, and nothing before it claims to be an overlay's source. */
  ghost predicate WasOverlay(l: Legacy, body: seq<Tree>, rest: seq<Tree>) {
    exists a, b :: body == a + l.overlay + b && (forall t :: t in a ==> !Claims(l, t)) && rest == a + b
  }

  lemma NothingRemoved(l: Legacy, body: seq<Tree>)
    requires forall t :: t in body ==> !Claims(l, t)
    ensures RemoveLegacy(l, body) == Some(body)
  {
    hide Claims;
  }

  lemma FirstRemoved(l: Legacy, a: seq<Tree>, b: seq<Tree>)
    requires LegacyOk(l) && forall t :: t in a ==> !Claims(l, t)
    ensures RemoveLegacy(l, a + l.overlay + b) == Some(a + b)
  {
    hide Claims, IsSource;
    var body := a + l.overlay + b;
    OverlayFirst(l, a, b);
    assert body[|a| + 1] == l.overlay[1];
    assert body[..|a|] == a && body[|a|..|a| + |l.overlay|] == l.overlay && body[|a| + |l.overlay|..] == b;
  }

  lemma RemovedWas(l: Legacy, body: seq<Tree>)
    requires RemoveLegacy(l, body).Some? && RemoveLegacy(l, body).value != body
    ensures WasOverlay(l, body, RemoveLegacy(l, body).value)
  {
    hide Claims;
    var i := FirstClaim(l, body, 0);
    var a, b := body[..i - 1], body[i - 1 + |l.overlay|..];
    assert body == a + l.overlay + b && RemoveLegacy(l, body).value == a + b;
    assert forall t :: t in a ==> !Claims(l, t);
  }

  /** The overlay's own second statement is its first claim. */
  lemma OverlayFirst(l: Legacy, a: seq<Tree>, b: seq<Tree>)
    requires LegacyOk(l) && forall t :: t in a ==> !Claims(l, t)
    ensures FirstClaim(l, a + l.overlay + b, 0) == |a| + 1
  {
    var body := a + l.overlay + b;
    assert Claims(l, body[|a| + 1]);
    forall k | 0 <= k < |a| + 1 ensures !Claims(l, body[k]) {
      if k < |a| { assert body[k] in a; } else { assert body[k] == l.overlay[0]; }
    }
  }

  method RemoveLegacyPrefix(l: Legacy, body: seq<Tree>) returns (r: Option<seq<Tree>>)
    requires LegacyOk(l)
    ensures r == RemoveLegacy(l, body)
    ensures (forall t :: t in body ==> !Claims(l, t)) ==> r == Some(body)
    ensures forall a, b :: body == a + l.overlay + b && (forall t :: t in a ==> !Claims(l, t)) ==> r == Some(a + b)
    ensures r.Some? && r.value != body ==> WasOverlay(l, body, r.value)
  {
    OverlayRemoved(l, body);
    for index := 0 to |body|
      invariant FirstClaim(l, body, 0) == FirstClaim(l, body, index)
    {
      if !Claims(l, body[index]) {
        continue;
      }
      if body[index] in l.tampered {
        return None;
      }
      var start := index - 1;
      if start < 0 || start + |l.overlay| > |body| || body[start..start + |l.overlay|] != l.overlay {
        return None;
      }
      return Some(body[..start] + body[start + |l.overlay|..]);
    }
    return Some(body);
  }

  // ---- the whole policy ----

  /** None where the submission is refused: a damaged old overlay, no bootstrap import of run anywhere, or a result that
      does not compile, as when a block held nothing but an old wrapper. */
  function Apply(compiles: seq<Tree> -> bool, l: Legacy, prefix: seq<Tree>, body: seq<Tree>): Option<seq<Tree>> {
    match RemoveLegacy(l, body)
    case None => None
    case Some(rest) =>
      var kept := Without(rest, prefix);
      var result := Splice(Rewritten(kept), prefix);
      if AnyMatch(kept) && compiles(result) then Some(result) else None
  }

  /** Some bootstrap import of run occurs in the list, at any depth the transformer looks into. */
  predicate AnyMatch(items: seq<Tree>) {
    exists i :: 0 <= i < |items| && HasMatch(items[i])
  }

  predicate HasMatch(t: Tree) {
    match t
    case ImportFrom(_, _, names) => IsBootstrap(t) && exists i :: 0 <= i < |names| && names[i].name == "run"
    case Block(items) => exists i :: 0 <= i < |items| && HasMatch(items[i])
    case Node(_, ch) => exists i :: 0 <= i < |ch| && HasMatch(ch[i])
    case Attribute(v, _) => HasMatch(v)
    case Call(f, args, kws) =>
      HasMatch(f) || (exists i :: 0 <= i < |args| && HasMatch(args[i])) || exists i :: 0 <= i < |kws| && HasMatch(kws[i].value)
    case ExprStmt(e) => HasMatch(e)
    case _ => false
  }

  lemma {:induction false} MatchKept(t: Tree)
    ensures HasMatch(Inside(t)) <==> HasMatch(t)
    decreases t, 0
  {
    match t {
      case Block(items) => MatchesKept(items, |items|); MatchAll(items);  MatchAll(VisitAll(items, |items|));
      case Node(kind, ch) =>
        forall i | 0 <= i < |ch| ensures HasMatch(Inside(ch[i])) <==> HasMatch(ch[i]) { MatchKept(ch[i]); }
        assert forall i :: 0 <= i < |ch| ==> Inside(t).children[i] == Inside(ch[i]);
      case Attribute(v, a) => MatchKept(v);
      case Call(f, args, kws) =>
        MatchKept(f);
        forall i | 0 <= i < |args| ensures HasMatch(Inside(args[i])) <==> HasMatch(args[i]) { MatchKept(args[i]); }
        forall i | 0 <= i < |kws| ensures HasMatch(Inside(kws[i].value)) <==> HasMatch(kws[i].value) { MatchKept(kws[i].value); }
        assert forall i :: 0 <= i < |args| ==> Inside(t).args[i] == Inside(args[i]);
        assert forall i :: 0 <= i < |kws| ==> Inside(t).keywords[i].value == Inside(kws[i].value);
      case ExprStmt(e) => MatchKept(e);
      case _ =>
    }
  }

  lemma MatchAll(items: seq<Tree>)
    ensures HasMatch(Block(items)) <==> AnyMatch(items)
  {
  }

  lemma {:induction false} MatchesKept(items: seq<Tree>, n: nat)
    requires n <= |items|
    ensures AnyMatch(VisitAll(items, n)) <==> AnyMatch(items[..n])
    decreases items, 2, n
  {
    if n > 0 {
      MatchesKept(items, n - 1);
      MatchOne(items[n - 1]);
      AnyConcat(VisitAll(items, n - 1), Visit(items[n - 1]));
      AnyConcat(items[..n - 1], [items[n - 1]]);
      assert items[..n] == items[..n - 1] + [items[n - 1]];
    }
  }

  lemma {:induction false} MatchOne(t: Tree)
    ensures AnyMatch(Visit(t)) <==> AnyMatch([t])
    decreases t, 1
  {
    AnySingle(t);
    if IsWrapper(t) {
    } else if IsBootstrap(t) {
      WrappersAreWrappers(t.names);
      AnyConcat([t], WrappersOf(t.names));
    } else {
      MatchKept(t);
      AnySingle(Inside(t));
    }
  }

  lemma AnySingle(t: Tree)
    ensures AnyMatch([t]) <==> HasMatch(t)
  {
    assert [t][0] == t;
  }

  lemma AnyConcat(a: seq<Tree>, b: seq<Tree>)
    ensures AnyMatch(a + b) <==> AnyMatch(a) || AnyMatch(b)
  {
    hide HasMatch;
    if AnyMatch(a) {
      var i :| 0 <= i < |a| && HasMatch(a[i]);
      assert (a + b)[i] == a[i];
    }
    if AnyMatch(b) {
      var i :| 0 <= i < |b| && HasMatch(b[i]);
      assert (a + b)[|a| + i] == b[i];
    }
  }

  // ---- when applying twice is applying once ----

  /** The policy's own statements are recognized by themselves: none of them is a wrapper, a bootstrap import or a
      worker source of the previous overlay. */
  predicate PrefixOk(l: Legacy, prefix: seq<Tree>) {
    forall i :: 0 <= i < |prefix| ==> !IsWrapper(prefix[i]) && !IsBootstrap(prefix[i]) && !Claims(l, prefix[i])
  }

  /** After one old overlay has been removed no other claims to be one, and no statement of the submission becomes,
      by losing old wrappers inside, one of the policy's own. */
  predicate Settles(l: Legacy, prefix: seq<Tree>, body: seq<Tree>) {
    var rest := RemoveLegacy(l, body);
    && rest.Some?
    && (forall i :: 0 <= i < |rest.value| ==> !Claims(l, rest.value[i]))
    && (forall i :: 0 <= i < |rest.value| && rest.value[i] !in prefix ==> Inside(rest.value[i]) !in prefix)
  }

  lemma {:induction false} VisitMembers(items: seq<Tree>, n: nat)
    requires n <= |items|
    ensures forall t :: t in VisitAll(items, n) ==>
              IsWrapper(t) || exists i :: 0 <= i < n && !IsWrapper(items[i]) && t == Inside(items[i])
    ensures forall i :: 0 <= i < n && !IsWrapper(items[i]) ==> Inside(items[i]) in VisitAll(items, n)
  {
    if n > 0 {
      VisitMembers(items, n - 1);
      var last := items[n - 1];
      InsideKind(last);
      if IsBootstrap(last) { WrappersAreWrappers(last.names); }
    }
  }

  lemma ClaimKept(l: Legacy, t: Tree)
    requires LegacyOk(l)
    ensures Claims(l, t) ==> !IsWrapper(t) && Inside(t) == t
    ensures Claims(l, Inside(t)) ==> Inside(t) == t
  {
    InsideKind(t);
    if Claims(l, Inside(t)) { assert Inside(t).Assign?; }
  }

  /** No statement of the rewritten submission claims to be an old overlay or equals one of the policy's own. */
  predicate Clean(l: Legacy, prefix: seq<Tree>, once: seq<Tree>) {
    forall i :: 0 <= i < |once| ==> once[i] !in prefix && !Claims(l, once[i])
  }

  lemma CleanIffSettles(l: Legacy, prefix: seq<Tree>, body: seq<Tree>)
    requires LegacyOk(l) && PrefixOk(l, prefix) && RemoveLegacy(l, body).Some?
    ensures Clean(l, prefix, Rewritten(Without(RemoveLegacy(l, body).value, prefix))) <==> Settles(l, prefix, body)
  {
    hide RemoveLegacy, Inside, IsWrapper, IsBootstrap, Claims, VisitAll;
    var rest := RemoveLegacy(l, body).value;
    var kept := Without(rest, prefix);
    WithoutFrom(rest, prefix);
    VisitMembers(kept, |kept|);
    var once := Rewritten(kept);
    if Settles(l, prefix, body) {
      forall i | 0 <= i < |once| ensures once[i] !in prefix && !Claims(l, once[i]) {
        assert once[i] in once;
        WrapperIsNeither(l, prefix, once[i]);
        if !IsWrapper(once[i]) {
          var k :| 0 <= k < |kept| && !IsWrapper(kept[k]) && once[i] == Inside(kept[k]);
          assert kept[k] in kept;
          var m :| 0 <= m < |rest| && rest[m] == kept[k];
          ClaimKept(l, kept[k]);
        }
      }
    }
    if Clean(l, prefix, once) {
      forall i | 0 <= i < |rest|
        ensures !Claims(l, rest[i])
        ensures rest[i] !in prefix ==> Inside(rest[i]) !in prefix
      {
        ClaimKept(l, rest[i]);
        OwnClaimsNothing(l, prefix, rest[i]);
        if rest[i] !in prefix {
          WithoutKeeps(rest, prefix, i);
          var k :| 0 <= k < |kept| && kept[k] == rest[i];
          if IsWrapper(rest[i]) {
            WrapperInside(l, prefix, rest[i]);
          } else {
            assert Inside(rest[i]) in once;
            var m :| 0 <= m < |once| && once[m] == Inside(rest[i]);
          }
        }
      }
    }
  }

  lemma OwnClaimsNothing(l: Legacy, prefix: seq<Tree>, t: Tree)
    requires PrefixOk(l, prefix)
    ensures t in prefix ==> !Claims(l, t)
  {
  }

  lemma WrapperIsNeither(l: Legacy, prefix: seq<Tree>, t: Tree)
    requires LegacyOk(l) && PrefixOk(l, prefix)
    ensures IsWrapper(t) ==> t !in prefix && !Claims(l, t)
  {
  }

  lemma WrapperInside(l: Legacy, prefix: seq<Tree>, t: Tree)
    requires PrefixOk(l, prefix) && IsWrapper(t)
    ensures Inside(t) == t && t !in prefix
  {
  }

  lemma {:induction false} WithoutKeeps(body: seq<Tree>, own: seq<Tree>, i: nat)
    requires i < |body| && body[i] !in own
    ensures body[i] in Without(body, own)
  {
    if i < |body| - 1 {
      WithoutKeeps(body[..|body| - 1], own, i);
    }
  }

  /** Applying the policy to its own result changes nothing exactly when the submission settles: a second old overlay,
      or a statement that turns into one of the policy's own, makes the next application fail or lose statements. */
  lemma ApplyTwice(compiles: seq<Tree> -> bool, l: Legacy, prefix: seq<Tree>, body: seq<Tree>)
    requires LegacyOk(l) && PrefixOk(l, prefix) && Apply(compiles, l, prefix, body).Some?
    ensures Apply(compiles, l, prefix, Apply(compiles, l, prefix, body).value) == Apply(compiles, l, prefix, body) <==> Settles(l, prefix, body)
  {
    hide RemoveLegacy, Inside, IsWrapper, IsBootstrap, Claims, VisitAll, Splice, HasMatch, Settles, PrefixOk;
    var rest := RemoveLegacy(l, body).value;
    var kept := Without(rest, prefix);
    var once := Rewritten(kept);
    var out := Splice(once, prefix);
    CleanIffSettles(l, prefix, body);
    if Clean(l, prefix, once) {
      NoClaim(l, prefix, once);
      assert RemoveLegacy(l, out) == Some(out);
      WithoutSplice(once, prefix);
      WithoutNone(once, prefix);
      VisitAllTwice(kept, |kept|);
      MatchesKept(kept, |kept|);
      assert kept[..|kept|] == kept;
    } else if exists i :: 0 <= i < |once| && Claims(l, once[i]) {
      ClaimSurvives(compiles, l, prefix, once);
    } else {
      NoClaim(l, prefix, once);
      LosesStatement(compiles, l, prefix, kept);
    }
  }

  /** Without any claiming statement there is nothing to remove. */
  lemma NoClaim(l: Legacy, prefix: seq<Tree>, once: seq<Tree>)
    requires PrefixOk(l, prefix) && forall i :: 0 <= i < |once| ==> !Claims(l, once[i])
    ensures RemoveLegacy(l, Splice(once, prefix)) == Some(Splice(once, prefix))
  {
    hide Claims, IsWrapper, IsBootstrap;
    var out, n := Splice(once, prefix), Insertion(once);
    forall k | 0 <= k < |out| ensures !Claims(l, out[k]) {
      if n <= k < n + |prefix| { assert out[k] == prefix[k - n]; }
      else if k < n { assert out[k] == once[k]; }
      else { assert out[k] == once[k - |prefix|]; }
    }
  }

  function ClaimCount(l: Legacy, body: seq<Tree>): nat {
    if body == [] then 0 else ClaimCount(l, body[..|body| - 1]) + if Claims(l, body[|body| - 1]) then 1 else 0
  }

  lemma {:induction false} ClaimConcat(l: Legacy, a: seq<Tree>, b: seq<Tree>)
    ensures ClaimCount(l, a + b) == ClaimCount(l, a) + ClaimCount(l, b)
    decreases |b|
  {
    hide Claims;
    if b == [] {
      assert a + b == a;
    } else {
      assert (a + b)[..|a + b| - 1] == a + b[..|b| - 1];
      ClaimConcat(l, a, b[..|b| - 1]);
    }
  }

  lemma {:induction false} ClaimNone(l: Legacy, body: seq<Tree>)
    ensures ClaimCount(l, body) == 0 <==> forall i :: 0 <= i < |body| ==> !Claims(l, body[i])
  {
    hide Claims;
    if body != [] { ClaimNone(l, body[..|body| - 1]); }
  }

  lemma {:induction false} ClaimWithout(l: Legacy, prefix: seq<Tree>, body: seq<Tree>)
    requires PrefixOk(l, prefix)
    ensures ClaimCount(l, Without(body, prefix)) == ClaimCount(l, body)
  {
    hide Claims;
    if body != [] {
      ClaimWithout(l, prefix, body[..|body| - 1]);
      var last := body[|body| - 1];
      ClaimSingle(l, last);
      ClaimConcat(l, Without(body[..|body| - 1], prefix), if last in prefix then [] else [last]);
      assert ClaimCount(l, []) == 0;
    }
  }

  lemma ClaimSingle(l: Legacy, t: Tree)
    ensures ClaimCount(l, [t]) == if Claims(l, t) then 1 else 0
  {
    hide Claims;
    assert [t][..0] == [];
  }

  lemma {:induction false} ClaimVisit(l: Legacy, items: seq<Tree>, n: nat)
    requires LegacyOk(l) && n <= |items|
    ensures ClaimCount(l, VisitAll(items, n)) == ClaimCount(l, items[..n])
  {
    hide Claims, Inside;
    if n > 0 {
      ClaimVisit(l, items, n - 1);
      var t := items[n - 1];
      assert items[..n][..n - 1] == items[..n - 1];
      ClaimConcat(l, VisitAll(items, n - 1), Visit(t));
      assert ClaimCount(l, Visit(t)) == if Claims(l, t) then 1 else 0 by { ClaimVisitOne(l, t); }
    }
  }

  lemma ClaimVisitOne(l: Legacy, t: Tree)
    requires LegacyOk(l)
    ensures ClaimCount(l, Visit(t)) == if Claims(l, t) then 1 else 0
  {
    ClaimKept(l, t);
    if IsWrapper(t) {
      ClaimNone(l, []);
    } else if IsBootstrap(t) {
      WrappersAreWrappers(t.names);
      ClaimNone(l, WrappersOf(t.names));
      ClaimConcat(l, [t], WrappersOf(t.names));
      ClaimSingle(l, t);
    } else {
      ClaimSingle(l, Inside(t));
    }
  }

  /** A claiming statement that is left makes the next application fail or remove it: the results differ. */
  lemma ClaimSurvives(compiles: seq<Tree> -> bool, l: Legacy, prefix: seq<Tree>, once: seq<Tree>)
    requires LegacyOk(l) && PrefixOk(l, prefix) && exists i :: 0 <= i < |once| && Claims(l, once[i])
    ensures Apply(compiles, l, prefix, Splice(once, prefix)) != Some(Splice(once, prefix))
  {
    hide Claims, VisitAll, HasMatch, PrefixOk;
    var out := Splice(once, prefix);
    var r := Apply(compiles, l, prefix, out);
    ClaimNone(l, once);
    SpliceClaims(l, prefix, once);
    if r.Some? {
      var rest := RemoveLegacy(l, out).value;
      RemovalDropsClaim(l, out);
      var kept := Without(rest, prefix);
      ClaimWithout(l, prefix, rest);
      ClaimVisit(l, kept, |kept|);
      assert kept[..|kept|] == kept;
      SpliceClaims(l, prefix, Rewritten(kept));
    }
  }

  lemma SpliceClaims(l: Legacy, prefix: seq<Tree>, body: seq<Tree>)
    requires PrefixOk(l, prefix)
    ensures ClaimCount(l, Splice(body, prefix)) == ClaimCount(l, body)
  {
    hide Claims, IsWrapper, IsBootstrap;
    var n := Insertion(body);
    ClaimNone(l, prefix);
    ClaimConcat(l, body[..n] + prefix, body[n..]);
    ClaimConcat(l, body[..n], prefix);
    ClaimConcat(l, body[..n], body[n..]);
    assert body[..n] + body[n..] == body;
  }

  lemma RemovalDropsClaim(l: Legacy, out: seq<Tree>)
    requires LegacyOk(l) && RemoveLegacy(l, out).Some? && ClaimCount(l, out) > 0
    ensures ClaimCount(l, RemoveLegacy(l, out).value) < ClaimCount(l, out)
  {
    hide IsSource;
    ClaimNone(l, out);
    var i := FirstClaim(l, out, 0);
    var a, b := out[..i - 1], out[i - 1 + |l.overlay|..];
    assert out == a + l.overlay + b;
    ClaimConcat(l, a + l.overlay, b);
    ClaimConcat(l, a, l.overlay);
    ClaimConcat(l, a, b);
    ClaimNone(l, l.overlay);
    assert Claims(l, l.overlay[1]);
  }

  /** A rewritten statement that equals one of the policy's own is dropped by the next application. */
  lemma LosesStatement(compiles: seq<Tree> -> bool, l: Legacy, prefix: seq<Tree>, kept: seq<Tree>)
    requires LegacyOk(l) && PrefixOk(l, prefix)
    requires var once := Rewritten(kept);
      && RemoveLegacy(l, Splice(once, prefix)) == Some(Splice(once, prefix))
      && exists i :: 0 <= i < |once| && once[i] in prefix
    ensures var out := Splice(Rewritten(kept), prefix); Apply(compiles, l, prefix, out) != Some(out)
  {
    hide RemoveLegacy, VisitAll, HasMatch, PrefixOk, Claims;
    var once := Rewritten(kept);
    var out := Splice(once, prefix);
    WithoutSplice(once, prefix);
    WithoutFrom(once, prefix);
    RewrittenWithout(l, prefix, kept);
    if Apply(compiles, l, prefix, out).Some? {
      assert |Apply(compiles, l, prefix, out).value| < |out|;
    }
  }

  /** Dropping the policy's own statements from a rewritten list leaves it rewritten. */
  lemma RewrittenWithout(l: Legacy, prefix: seq<Tree>, kept: seq<Tree>)
    requires PrefixOk(l, prefix)
    ensures var rest := Without(Rewritten(kept), prefix); Rewritten(rest) == rest
  {
    RewrittenWithoutUpTo(l, prefix, kept, |kept|);
  }

  lemma {:induction false} RewrittenWithoutUpTo(l: Legacy, prefix: seq<Tree>, kept: seq<Tree>, n: nat)
    requires PrefixOk(l, prefix) && n <= |kept|
    ensures var rest := Without(VisitAll(kept, n), prefix); Rewritten(rest) == rest
  {
    hide IsWrapper, IsBootstrap, Claims, Inside, PrefixOk;
    if n > 0 {
      RewrittenWithoutUpTo(l, prefix, kept, n - 1);
      var a, b := VisitAll(kept, n - 1), Visit(kept[n - 1]);
      WithoutConcat(a, b, prefix);
      var x, y := Without(a, prefix), Without(b, prefix);
      OneWithout(l, prefix, kept[n - 1]);
      VisitAllConcat(x, y, |y|);
    }
  }

  lemma OneWithout(l: Legacy, prefix: seq<Tree>, t: Tree)
    requires PrefixOk(l, prefix)
    ensures var y := Without(Visit(t), prefix); Rewritten(y) == y
  {
    VisitTwice(t);
    if IsBootstrap(t) {
      WrappersAreWrappers(t.names);
      WithoutNone(Visit(t), prefix);
    } else if !IsWrapper(t) {
      var v := Visit(t);
      assert v[..0] == [] && Without([], prefix) == [];
      if v[0] !in prefix { assert Without(v, prefix) == v; } else { assert Without(v, prefix) == []; }
    }
  }

  // ---- two old overlays ----

  /** A submission that carries the previous overlay twice and imports the bootstrap is prepared once, and refused or
      changed by the next attempt, whatever else it contains. */
  lemma TwoOverlaysDoNotSettle(compiles: seq<Tree> -> bool, l: Legacy, prefix: seq<Tree>, tail: seq<Tree>)
    requires LegacyOk(l) && PrefixOk(l, prefix) && AnyMatch(Without(l.overlay + tail, prefix))
    requires compiles(Splice(Rewritten(Without(l.overlay + tail, prefix)), prefix))
    ensures var once := Apply(compiles, l, prefix, l.overlay + l.overlay + tail);
      once.Some? && Apply(compiles, l, prefix, once.value) != once
  {
    hide HasMatch, PrefixOk, VisitAll;
    var body := l.overlay + l.overlay + tail;
    assert body[1] == l.overlay[1] && Claims(l, body[1]);
    assert !Claims(l, body[0]) by { assert body[0] == l.overlay[0]; }
    assert FirstClaim(l, body, 0) == FirstClaim(l, body, 1) == 1;
    assert body[0..|l.overlay|] == l.overlay;
    var rest := RemoveLegacy(l, body).value;
    assert rest == l.overlay + tail;
    assert rest[1] == l.overlay[1];
    ApplyTwice(compiles, l, prefix, body);
  }

  const IMPORT_RUN := ImportFrom(BOOTSTRAP, 0, [Alias("run", None)])

  /** It is enough that the submission ends with the import: such submissions exist for every overlay and policy. */
  lemma TwoOverlaysOccur(compiles: seq<Tree> -> bool, l: Legacy, prefix: seq<Tree>)
    requires LegacyOk(l) && PrefixOk(l, prefix)
    requires compiles(Splice(Rewritten(Without(l.overlay + [IMPORT_RUN], prefix)), prefix))
    ensures AnyMatch(Without(l.overlay + [IMPORT_RUN], prefix))
    ensures var once := Apply(compiles, l, prefix, l.overlay + l.overlay + [IMPORT_RUN]);
      once.Some? && Apply(compiles, l, prefix, once.value) != once
  {
    hide Apply;
    var body := l.overlay + [IMPORT_RUN];
    assert IMPORT_RUN.names[0].name == "run" && HasMatch(IMPORT_RUN);
    assert body[|l.overlay|] == IMPORT_RUN;
    WithoutKeeps(body, prefix, |l.overlay|);
    var i :| 0 <= i < |Without(body, prefix)| && Without(body, prefix)[i] == IMPORT_RUN;
    TwoOverlaysDoNotSettle(compiles, l, prefix, [IMPORT_RUN]);
  }

  /** One of them, written out. */
  lemma TwoOverlaysExample()
    ensures var compiles: seq<Tree> -> bool := body => true; var l, prefix := Legacy([Node("old overlay", []), Assign([To(WORKER_SOURCE)], Text("old source"))], {}), [Node("policy", [])];
      var once := Apply(compiles, l, prefix, l.overlay + l.overlay + [IMPORT_RUN]);
      LegacyOk(l) && PrefixOk(l, prefix) && once.Some? && Apply(compiles, l, prefix, once.value) != once
  {
    hide Apply;
    TwoOverlaysOccur((body: seq<Tree>) => true, Legacy([Node("old overlay", []), Assign([To(WORKER_SOURCE)], Text("old source"))], {}), [Node("policy", [])]);
  }
}
