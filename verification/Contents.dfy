/** File contents and the checks on archive member names. */
module Contents {
  import opened KaggleRefs

  /** A file stands for its bytes, and since SHA-256 is taken to be injective also for its digest.
      Bytes that form a ZIP archive carry their directory; equal entries do not make equal bytes. */
  datatype File = Raw(id: nat, size: nat) | Zip(id: nat, size: nat, entries: seq<Info>)

  datatype Mode = NoMode | Regular | Directory | OtherMode

  datatype Info = Info(filename: string, sameAsStored: bool, encrypted: bool, mode: Mode, file: File) {
    predicate IsDir() { filename != "" && filename[|filename| - 1] == '/' }
  }

  /** size and digest of a file */
  datatype Entry = Entry(size: nat, digest: File)
  type Inventory = map<string, Entry>

  function InventoryOf(files: map<string, File>): Inventory {
    map n | n in files :: Entry(files[n].size, files[n])
  }

  lemma InventoryInjective(a: map<string, File>, b: map<string, File>)
    requires InventoryOf(a) == InventoryOf(b)
    ensures a == b
  {
    assert a.Keys == InventoryOf(a).Keys && b.Keys == InventoryOf(b).Keys;
    forall n | n in a ensures a[n] == b[n] {
      assert InventoryOf(a)[n].digest == a[n] && InventoryOf(b)[n].digest == b[n];
    }
  }

  ghost function Bytes(m: Inventory): nat {
    if m == map[] then 0
    else
      var k :| k in m;
      m[k].size + Bytes(m - {k})
  }

  lemma {:induction false} BytesWithout(m: Inventory, k: string)
    requires k in m
    ensures Bytes(m) == m[k].size + Bytes(m - {k})
    decreases |m|
  {
    var c :| c in m && Bytes(m) == m[c].size + Bytes(m - {c});
    if c != k {
      BytesWithout(m - {c}, k);
      BytesWithout(m - {k}, c);
      assert m - {c} - {k} == m - {k} - {c};
    }
  }

  method SumBytes(m: Inventory) returns (total: nat)
    ensures total == Bytes(m)
  {
    total := 0;
    var rest := m;
    while rest != map[]
      invariant total + Bytes(rest) == Bytes(m)
      decreases |rest|
    {
      var k :| k in rest.Keys;
      BytesWithout(rest, k);
      total := total + rest[k].size;
      rest := rest - {k};
    }
  }

  // ---- names ----

  function TrimSlashes(s: string): string {
    if s != "" && s[|s| - 1] == '/' then TrimSlashes(s[..|s| - 1]) else s
  }

  /** Some part between slashes is empty, "." or "..". */
  predicate BadPart(name: string) {
    exists i, j :: 0 <= i <= j <= |name| && PartAt(name, i, j) && (name[i..j] == "" || name[i..j] == "." || name[i..j] == "..")
  }

  /** name[i..j] lies between two consecutive slashes or ends of the name. */
  predicate PartAt(name: string, i: int, j: int) {
    && 0 <= i <= j <= |name|
    && (i == 0 || name[i - 1] == '/') && (j == |name| || name[j] == '/')
    && forall k :: i <= k < j ==> name[k] != '/'
  }

  predicate SafeName(name: string) {
    name != "" && '\\' !in name && ':' !in name && !BadPart(name)
  }

  function Fold(name: string): string {
    Lower(name)
  }

  /** One path part is safe unless it is empty, the directory itself or its parent, or has a backslash or a colon. */
  lemma SafePart(s: string)
    requires '/' !in s
    ensures SafeName(s) <==> s != "" && s != "." && s != ".." && '\\' !in s && ':' !in s
  {
    assert forall i, j :: PartAt(s, i, j) ==> i == 0 && j == |s|;
    assert PartAt(s, 0, |s|) && s[0..|s|] == s;
  }

  /** A path is safe exactly when everything before and after a slash is. */
  lemma SafePath(a: string, b: string)
    ensures SafeName(a + "/" + b) <==> SafeName(a) && SafeName(b)
  {
    hide BadPart;
    BadParts(a, b);
    EmptyIsBad();
    Letters(a, b, '\\');
    Letters(a, b, ':');
  }

  lemma Letters(a: string, b: string, c: char)
    requires c != '/'
    ensures c in a + "/" + b <==> c in a || c in b
  {
  }

  lemma EmptyIsBad()
    ensures BadPart("")
  {
    assert PartAt("", 0, 0) && ""[0..0] == "";
  }

  lemma BadParts(a: string, b: string)
    ensures BadPart(a + "/" + b) <==> BadPart(a) || BadPart(b)
  {
    hide PartAt;
    var s, k := a + "/" + b, |a| + 1;
    forall i, j | 0 <= i <= j <= |a| ensures s[i..j] == a[i..j] && (PartAt(s, i, j) <==> PartAt(a, i, j)) { PartBefore(a, b, i, j); }
    forall i, j | 0 <= i <= j <= |b| ensures s[k + i..k + j] == b[i..j] && (PartAt(s, k + i, k + j) <==> PartAt(b, i, j)) { PartAfter(a, b, i, j); }
    if BadPart(s) {
      var i, j :| 0 <= i <= j <= |s| && PartAt(s, i, j) && (s[i..j] == "" || s[i..j] == "." || s[i..j] == "..");
      PartBeside(a, b, i, j);
      if j <= |a| {
        assert PartAt(a, i, j) && a[i..j] == s[i..j];
      } else {
        assert k + (i - k) == i && k + (j - k) == j;
        assert PartAt(b, i - k, j - k) && b[i - k..j - k] == s[i..j];
      }
    }
    if BadPart(a) {
      var i, j :| 0 <= i <= j <= |a| && PartAt(a, i, j) && (a[i..j] == "" || a[i..j] == "." || a[i..j] == "..");
      assert PartAt(s, i, j) && s[i..j] == a[i..j];
    }
    if BadPart(b) {
      var i, j :| 0 <= i <= j <= |b| && PartAt(b, i, j) && (b[i..j] == "" || b[i..j] == "." || b[i..j] == "..");
      assert PartAt(s, k + i, k + j) && s[k + i..k + j] == b[i..j];
    }
  }

  lemma PartBefore(a: string, b: string, i: int, j: int)
    requires 0 <= i <= j <= |a|
    ensures var s := a + "/" + b; s[i..j] == a[i..j] && (PartAt(s, i, j) <==> PartAt(a, i, j))
  {
    var s := a + "/" + b;
    assert forall k :: 0 <= k < |a| ==> s[k] == a[k];
    assert s[|a|] == '/';
  }

  lemma PartAfter(a: string, b: string, i: int, j: int)
    requires 0 <= i <= j <= |b|
    ensures var s, k := a + "/" + b, |a| + 1; s[k + i..k + j] == b[i..j] && (PartAt(s, k + i, k + j) <==> PartAt(b, i, j))
  {
    var s, k := a + "/" + b, |a| + 1;
    assert s[|a|] == '/' && s[k + i..k + j] == b[i..j];
    if PartAt(b, i, j) {
      assert i > 0 ==> s[k + i - 1] == b[i - 1];
      forall m | k + i <= m < k + j ensures s[m] != '/' { assert s[m] == b[m - k]; }
    }
    if PartAt(s, k + i, k + j) {
      assert i > 0 ==> b[i - 1] == s[k + i - 1];
      forall m | i <= m < j ensures b[m] != '/' { assert b[m] == s[k + m]; }
    }
  }

  /** A part does not go across the slash. */
  lemma PartBeside(a: string, b: string, i: int, j: int)
    requires 0 <= i <= j <= |a| + 1 + |b| && PartAt(a + "/" + b, i, j)
    ensures j <= |a| || i > |a|
  {
    assert (a + "/" + b)[|a|] == '/';
  }

  /** Names collide exactly when they are spelled alike up to case. */
  lemma FoldMeans(a: string, b: string)
    ensures Fold(a) == Fold(b) <==> |a| == |b| && forall i :: 0 <= i < |a| ==> SameLetter(a[i], b[i])
  {
    LowerMeans(a, b);
  }
}
