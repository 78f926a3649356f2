/** Kaggle references "owner/slug[/version]" as strings: which dataset sources belong to a job,
    pinning them to one exact version, and replacing only the owner. */
module KaggleRefs {
  import opened Options

  predicate IsSpace(c: char) {
    c in {' ', '\t', '\n', '\r'}
  }

  function StripLeft(s: string): string {
    if s != "" && IsSpace(s[0]) then StripLeft(s[1..]) else s
  }

  function StripRight(s: string): string {
    if s != "" && IsSpace(s[|s| - 1]) then StripRight(s[..|s| - 1]) else s
  }

  function Strip(s: string): string {
    StripRight(StripLeft(s))
  }

  function LowerChar(c: char): char {
    if 'A' <= c <= 'Z' then (c as int + 32) as char else c
  }

  function Lower(s: string): string {
    seq(|s|, i requires 0 <= i < |s| => LowerChar(s[i]))
  }

  /** Index of the first '/' at or after `from`, or |s|. */
  function Slash(s: string, from: nat := 0): (i: nat)
    requires from <= |s|
    ensures from <= i <= |s|
    ensures i < |s| ==> s[i] == '/'
    ensures forall k :: from <= k < i ==> s[k] != '/'
    decreases |s| - from
  {
    if from == |s| || s[from] == '/' then from else Slash(s, from + 1)
  }

  /** split("/")[1], or "" when there is no '/'. */
  function SecondPart(s: string): string {
    var i := Slash(s);
    if i == |s| then "" else s[i + 1..Slash(s, i + 1)]
  }

  /** The slug of a reference; a version suffix does not belong to it. */
  function RefSlug(value: string): string {
    Strip(SecondPart(Strip(value)))
  }

  predicate SameSlug(source: string, datasetRef: string) {
    Lower(RefSlug(source)) == Lower(RefSlug(datasetRef))
  }

  function Digits(n: nat): (s: string)
    ensures |s| > 0
    ensures forall i :: 0 <= i < |s| ==> '0' <= s[i] <= '9'
  {
    var d := ['0' + (n % 10) as char];
    if n < 10 then d else Digits(n / 10) + d
  }

  function Versioned(datasetRef: string, version: nat): string {
    datasetRef + "/" + Digits(version)
  }

  /** The loop that rewrites metadata["dataset_sources"]: every source with the final
      reference's slug becomes that reference, all others stay; nothing is done for an empty slug. */
  method RewriteSources(sources: seq<string>, finalRef: string) returns (rewritten: seq<string>, changed: bool)
    ensures rewritten == Rewritten(sources, finalRef)
    ensures changed <==> rewritten != sources
  {
    hide RefSlug, Lower;
    rewritten, changed := [], false;
    for i := 0 to |sources|
      invariant |rewritten| == i
      invariant forall k :: 0 <= k < i ==> rewritten[k] == RewriteOne(sources[k], finalRef)
      invariant changed <==> !FirstUnchanged(sources, finalRef, i)
    {
      var source := RewriteOne(sources[i], finalRef);
      if source != sources[i] {
        changed := true;
      }
      rewritten := rewritten + [source];
    }
    FirstUnchangedAll(sources, finalRef, |sources|);
  }

  predicate FirstUnchanged(sources: seq<string>, finalRef: string, n: nat)
    requires n <= |sources|
  {
    n == 0 || (FirstUnchanged(sources, finalRef, n - 1) && RewriteOne(sources[n - 1], finalRef) == sources[n - 1])
  }

  lemma {:induction false} FirstUnchangedAll(sources: seq<string>, finalRef: string, n: nat)
    requires n <= |sources|
    ensures FirstUnchanged(sources, finalRef, n) <==> forall k :: 0 <= k < n ==> RewriteOne(sources[k], finalRef) == sources[k]
  {
    hide RefSlug, Lower;
    if n > 0 {
      FirstUnchangedAll(sources, finalRef, n - 1);
    }
  }

  function RewriteOne(source: string, finalRef: string): string {
    if Lower(RefSlug(finalRef)) != "" && SameSlug(source, finalRef) then finalRef else source
  }

  function Rewritten(sources: seq<string>, finalRef: string): seq<string> {
    seq(|sources|, i requires 0 <= i < |sources| => RewriteOne(sources[i], finalRef))
  }

  function Pinned(sources: seq<string>, datasetRef: string, version: nat): seq<string> {
    Rewritten(sources, Versioned(datasetRef, version))
  }

  /** Every source of the job's dataset names exactly this version. */
  predicate AllPinned(sources: seq<string>, datasetRef: string, version: nat) {
    forall i :: 0 <= i < |sources| && SameSlug(sources[i], datasetRef) ==> sources[i] == Versioned(datasetRef, version)
  }

  // ---- string facts ----

  lemma SlashAt(s: string, from: nat, i: nat)
    requires from <= i <= |s| && (i < |s| ==> s[i] == '/') && forall k :: from <= k < i ==> s[k] != '/'
    ensures Slash(s, from) == i
  {
  }

  lemma {:induction false} StripLeftDrops(s: string)
    ensures exists k: nat :: k <= |s| && StripLeft(s) == s[k..] && forall i :: 0 <= i < k ==> IsSpace(s[i])
  {
    if s != "" && IsSpace(s[0]) {
      StripLeftDrops(s[1..]);
      var k: nat :| k <= |s[1..]| && StripLeft(s[1..]) == s[1..][k..] && forall i :: 0 <= i < k ==> IsSpace(s[1..][i]);
      assert s[1..][k..] == s[k + 1..];
      forall i | 0 <= i < k + 1 ensures IsSpace(s[i]) {
        if i > 0 { assert s[i] == s[1..][i - 1]; }
      }
    } else {
      assert s[0..] == s;
    }
  }

  lemma {:induction false} StripRightDrops(s: string)
    ensures exists k: nat :: k <= |s| && StripRight(s) == s[..k] && forall i :: k <= i < |s| ==> IsSpace(s[i])
  {
    if s != "" && IsSpace(s[|s| - 1]) {
      var t := s[..|s| - 1];
      StripRightDrops(t);
      var k: nat :| k <= |t| && StripRight(t) == t[..k] && forall i :: k <= i < |t| ==> IsSpace(t[i]);
      assert t[..k] == s[..k];
      forall i | k <= i < |s| ensures IsSpace(s[i]) {
        if i < |t| { assert s[i] == t[i]; }
      }
    } else {
      assert s[..|s|] == s;
    }
  }

  lemma {:induction false} StripRightIgnores(s: string, k: nat)
    requires k <= |s| && forall i :: k <= i < |s| ==> IsSpace(s[i])
    ensures StripRight(s) == StripRight(s[..k])
  {
    if k < |s| {
      assert s[..|s| - 1][..k] == s[..k];
      StripRightIgnores(s[..|s| - 1], k);
    } else {
      assert s[..k] == s;
    }
  }

  lemma {:induction false} StripIgnoresTail(s: string, k: nat)
    requires k <= |s| && forall i :: k <= i < |s| ==> IsSpace(s[i])
    ensures Strip(s) == Strip(s[..k])
  {
    if s != "" && IsSpace(s[0]) {
      if k == 0 {
        StripIgnoresTail(s[1..], 0);
        assert s[..0] == s[1..][..0];
      } else {
        assert s[..k][1..] == s[1..][..k - 1];
        StripIgnoresTail(s[1..], k - 1);
      }
    } else {
      StripRightIgnores(s, k);
      if k > 0 {
        assert StripLeft(s[..k]) == s[..k];
      } else {
        assert s[..0] == "";
      }
    }
  }

  /** Only the text between the first two slashes matters for the slug; stripping the whole
      reference first changes nothing. */
  lemma SlugOfSecondPart(value: string)
    ensures RefSlug(value) == Strip(SecondPart(value))
  {
    StripLeftDrops(value);
    var a: nat :| a <= |value| && StripLeft(value) == value[a..] && forall i :: 0 <= i < a ==> IsSpace(value[i]);
    var left := value[a..];
    SecondPartOfSuffix(value, a);
    StripRightDrops(left);
    var b: nat :| b <= |left| && StripRight(left) == left[..b] && forall i :: b <= i < |left| ==> IsSpace(left[i]);
    SecondPartOfPrefix(left, b);
  }

  lemma SecondPartOfSuffix(s: string, a: nat)
    requires a <= |s| && forall i :: 0 <= i < a ==> s[i] != '/'
    ensures SecondPart(s[a..]) == SecondPart(s)
  {
    hide Slash, SecondPart;
    var i, t := Slash(s), s[a..];
    assert a <= i by { SlashAfter(s, a); }
    SlashAt(s, a, i);
    SlashOfSuffix(s, a, a);
    if i < |s| {
      var j := Slash(s, i + 1);
      SlashOfSuffix(s, a, i + 1);
      SliceOfSuffix(s, a, i + 1, j);
      SecondPartIs(s, i, j);
      SecondPartIs(t, i - a, j - a);
    } else {
      SecondPartNone(s);
      SecondPartNone(t);
    }
  }

  lemma SecondPartIs(s: string, i: nat, j: nat)
    requires i < |s| && Slash(s) == i && Slash(s, i + 1) == j
    ensures SecondPart(s) == s[i + 1..j]
  {
    hide Slash;
  }

  lemma SecondPartNone(s: string)
    requires Slash(s) == |s|
    ensures SecondPart(s) == ""
  {
    hide Slash;
  }

  lemma SlashAfter(s: string, a: nat)
    requires a <= |s| && forall i :: 0 <= i < a ==> s[i] != '/'
    ensures a <= Slash(s)
  {
    hide Slash;
  }

  lemma SliceOfSuffix(s: string, a: nat, i: nat, j: nat)
    requires a <= i <= j <= |s|
    ensures s[a..][i - a..j - a] == s[i..j]
  {
  }

  lemma SlashOfSuffix(s: string, a: nat, from: nat)
    requires a <= from <= |s|
    ensures Slash(s[a..], from - a) == Slash(s, from) - a
  {
    SlashAt(s[a..], from - a, Slash(s, from) - a);
  }

  lemma SlashOfAppend(s: string, u: string, from: nat)
    requires from <= |s| && u != "" && u[0] == '/'
    ensures Slash(s + u, from) == Slash(s, from)
  {
    SlashAt(s + u, from, Slash(s, from));
  }

  lemma SecondPartOfPrefix(s: string, b: nat)
    requires b <= |s| && forall i :: b <= i < |s| ==> IsSpace(s[i])
    ensures Strip(SecondPart(s[..b])) == Strip(SecondPart(s))
  {
    hide Slash, Strip;
    var i := Slash(s);
    if i == |s| {
      SlashAt(s[..b], 0, b);
    } else {
      assert !IsSpace(s[i]);
      SlashAt(s[..b], 0, i);
      SecondOfPrefix(s, b, i);
    }
  }

  /** The part after the first slash, when trailing blanks are cut off. */
  lemma SecondOfPrefix(s: string, b: nat, i: nat)
    requires i < b <= |s| && forall k :: b <= k < |s| ==> IsSpace(s[k])
    ensures Strip(s[..b][i + 1..Slash(s[..b], i + 1)]) == Strip(s[i + 1..Slash(s, i + 1)])
  {
    hide Slash, Strip;
    var j := Slash(s, i + 1);
    if j < |s| {
      assert !IsSpace(s[j]);
      SlashAt(s[..b], i + 1, j);
      assert s[..b][i + 1..j] == s[i + 1..j];
    } else {
      SlashAt(s[..b], i + 1, b);
      var tail := s[i + 1..j];
      assert s[..b][i + 1..b] == tail[..b - i - 1];
      StripIgnoresTail(tail, b - i - 1);
    }
  }

  lemma SecondPartOfVersioned(s: string, u: string)
    requires Slash(s) < |s| && u != "" && u[0] == '/'
    ensures SecondPart(s + u) == SecondPart(s)
  {
    var i := Slash(s);
    SlashOfAppend(s, u, 0);
    SlashOfAppend(s, u, i + 1);
    SliceOfAppend(s, u, i + 1, Slash(s, i + 1));
  }

  lemma SliceOfAppend(s: string, u: string, i: nat, j: nat)
    requires i <= j <= |s|
    ensures (s + u)[i..j] == s[i..j]
  {
  }

  lemma HasSlash(s: string)
    requires Strip(SecondPart(s)) != ""
    ensures Slash(s) < |s|
  {
    hide Slash;
  }

  /** A version suffix never changes which dataset a reference names. */
  lemma VersionKeepsSlug(datasetRef: string, version: nat)
    requires RefSlug(datasetRef) != ""
    ensures RefSlug(Versioned(datasetRef, version)) == RefSlug(datasetRef)
  {
    hide Strip, Slash, RefSlug, Digits;
    SlugOfSecondPart(datasetRef);
    SlugOfSecondPart(Versioned(datasetRef, version));
    HasSlash(datasetRef);
    SecondPartOfVersioned(datasetRef, "/" + Digits(version));
    assert Versioned(datasetRef, version) == datasetRef + ("/" + Digits(version));
  }

  /** Pinning is complete and touches nothing else: afterwards every source of the job's dataset is
      exactly that version, whatever version it named before, and every other source is unchanged. */
  lemma PinsEverySource(sources: seq<string>, datasetRef: string, version: nat)
    requires RefSlug(datasetRef) != ""
    ensures var p := Pinned(sources, datasetRef, version);
      && |p| == |sources|
      && AllPinned(p, datasetRef, version)
      && (forall i :: 0 <= i < |p| && !SameSlug(sources[i], datasetRef) ==> p[i] == sources[i])
      && (forall i :: 0 <= i < |p| && SameSlug(sources[i], datasetRef) ==> p[i] == Versioned(datasetRef, version))
  {
    VersionKeepsSlug(datasetRef, version);
    assert |Lower(RefSlug(datasetRef))| > 0;
  }

  /** A retry that resets the sources to the unversioned reference, or that pinned an older version,
      does not leave any trace in the next pin. */
  lemma RepinForgetsEarlierPin(sources: seq<string>, datasetRef: string, older: nat, version: nat)
    requires RefSlug(datasetRef) != ""
    ensures Pinned(Rewritten(Pinned(sources, datasetRef, older), datasetRef), datasetRef, version)
         == Pinned(sources, datasetRef, version)
  {
    VersionKeepsSlug(datasetRef, older);
    VersionKeepsSlug(datasetRef, version);
    var once := Pinned(sources, datasetRef, older);
    var reset := Rewritten(once, datasetRef);
    assert |Lower(RefSlug(datasetRef))| > 0;
    forall i | 0 <= i < |sources|
      ensures Pinned(reset, datasetRef, version)[i] == Pinned(sources, datasetRef, version)[i]
    {
      assert SameSlug(sources[i], Versioned(datasetRef, older)) <==> SameSlug(sources[i], datasetRef);
    }
  }

  // ---- which references name the same dataset ----

  /** Equal up to the case of an ASCII letter. */
  predicate SameLetter(c: char, d: char) {
    c == d || ('A' <= c <= 'Z' && d as int == c as int + 32) || ('A' <= d <= 'Z' && c as int == d as int + 32)
  }

  /** A reference: owner, slug and perhaps a version or anything else after a further slash. */
  predicate IsRef(value: string, owner: string, slug: string, rest: string) {
    value == owner + "/" + slug + rest && '/' !in owner && '/' !in slug && Solid(slug) && (rest != "" ==> rest[0] == '/')
  }

  /** Two references name the same dataset exactly when their slugs are spelled alike up to case; owners and versions
      do not matter. */
  lemma SameSlugMeans(v: string, owner: string, slug: string, rest: string, v': string, owner': string, slug': string, rest': string)
    requires IsRef(v, owner, slug, rest) && IsRef(v', owner', slug', rest')
    ensures SameSlug(v, v') <==> |slug| == |slug'| && forall i :: 0 <= i < |slug| ==> SameLetter(slug[i], slug'[i])
  {
    hide RefSlug, Lower, SameLetter;
    SlugOfRef(v, owner, slug, rest);
    SlugOfRef(v', owner', slug', rest');
    LowerMeans(slug, slug');
  }

  lemma LowerMeans(a: string, b: string)
    ensures Lower(a) == Lower(b) <==> |a| == |b| && forall i :: 0 <= i < |a| ==> SameLetter(a[i], b[i])
  {
    var l, m := Lower(a), Lower(b);
    if l == m {
      assert |a| == |l| == |m| == |b|;
      forall i | 0 <= i < |a| ensures SameLetter(a[i], b[i]) { assert l[i] == m[i]; }
    }
  }

  lemma SlugOfRef(value: string, owner: string, slug: string, rest: string)
    requires IsRef(value, owner, slug, rest)
    ensures RefSlug(value) == slug
  {
    hide RefSlug, Slash, Strip;
    SlugOfSecondPart(value);
    SlashAt(value, 0, |owner|);
    SlashAt(value, |owner| + 1, |owner| + 1 + |slug|);
    assert value[|owner| + 1..|owner| + 1 + |slug|] == slug;
    StripSolid(slug);
  }

  // ---- owner replacement ----

  /** split("/", 1) with both sides stripped; None where the source raises. */
  function SplitRef(value: string): Option<(string, string)> {
    var ref := Strip(value);
    var i := Slash(ref);
    if i == |ref| || Strip(ref[..i]) == "" || Strip(ref[i + 1..]) == "" then None
    else Some((Strip(ref[..i]), Strip(ref[i + 1..])))
  }

  function RewriteOwner(value: string, owner: string): Option<string> {
    if Strip(owner) == "" then Some(Strip(value))
    else
      match SplitRef(value)
      case None => None
      case Some((_, slug)) => Some(Strip(owner) + "/" + slug)
  }

  lemma {:induction false} StripRightSolid(s: string)
    ensures StripRight(s) == "" || !IsSpace(StripRight(s)[|StripRight(s)| - 1])
  {
    if s != "" && IsSpace(s[|s| - 1]) {
      StripRightSolid(s[..|s| - 1]);
    }
  }

  lemma {:induction false} StripLeftSolid(s: string)
    ensures StripLeft(s) == "" || !IsSpace(StripLeft(s)[0])
  {
    if s != "" && IsSpace(s[0]) {
      StripLeftSolid(s[1..]);
    }
  }

  predicate Solid(s: string) {
    s != "" && !IsSpace(s[0]) && !IsSpace(s[|s| - 1])
  }

  lemma StripSolid(s: string)
    requires Solid(s)
    ensures Strip(s) == s
  {
  }

  lemma StripIsSolid(s: string)
    ensures Strip(s) == "" || Solid(Strip(s))
  {
    StripLeftSolid(s);
    StripRightSolid(StripLeft(s));
    StripRightDrops(StripLeft(s));
  }

  /** Binding replaces the owner and nothing else: the rewritten reference splits into the new
      owner and the old slug, and rewriting again with the same owner changes nothing. */
  lemma RewriteOwnerKeepsSlug(value: string, owner: string)
    requires SplitRef(value).Some? && Strip(owner) != "" && Slash(Strip(owner)) == |Strip(owner)|
    ensures var r := RewriteOwner(value, owner);
      && r.Some?
      && SplitRef(r.value) == Some((Strip(owner), SplitRef(value).value.1))
      && RewriteOwner(r.value, owner) == r
  {
    var o, slug := Strip(owner), SplitRef(value).value.1;
    var r := o + "/" + slug;
    StripIsSolid(owner);
    StripIsSolid(Strip(value)[Slash(Strip(value)) + 1..]);
    assert Solid(o) && Solid(slug);
    assert StripLeft(r) == r && StripRight(r) == r;
    SlashAt(r, 0, |o|);
    assert r[..|o|] == o && r[|o| + 1..] == slug;
    assert Strip(o) == o && Strip(slug) == slug;
  }
}
