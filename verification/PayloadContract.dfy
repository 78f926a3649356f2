/** The accepted layouts of an uploaded payload, and the two verifiers of a published version: one reads the
    whole archive, the other the listed files. */
module PayloadContract {
  import opened Options
  import opened Contents

  type Files = map<string, File>

  const PAYLOAD := "payload.zip"
  const KAGGLE_RUNTIME := "model_source/kaggle_runtime/runtime.zip"
  const KAGGLE_PREFIX := "model_source/kaggle_runtime/runtime/"
  const P6_RUNTIME := "model_source/p6_runtime/runtime.zip"
  const P6_PREFIX := "model_source/p6_runtime/runtime/"
  const MAX_RUNTIME_BYTES: nat := 4 * 1024 * 1024
  const METADATA := "dataset-metadata.json"

  // ---- archive members ----

  predicate Acceptable(info: Info) {
    && SafeName(TrimSlashes(info.filename)) && info.sameAsStored && !info.encrypted && !info.mode.OtherMode?
    && (info.IsDir() || !info.mode.Directory?)
  }

  predicate AllAcceptable(entries: seq<Info>) {
    && (forall i :: 0 <= i < |entries| ==> Acceptable(entries[i]))
    && (forall i, k :: 0 <= i < k < |entries| ==> Fold(TrimSlashes(entries[i].filename)) != Fold(TrimSlashes(entries[k].filename)))
  }

  function FilesOf(entries: seq<Info>): Files {
    if entries == [] then map[]
    else
      var last := entries[|entries| - 1];
      var files := FilesOf(entries[..|entries| - 1]);
      if last.IsDir() then files else files[TrimSlashes(last.filename) := last.file]
  }

  /** No file lies below another file. */
  predicate NoConflict(files: Files) {
    forall n, i | n in files && 0 <= i < |n| && n[i] == '/' :: n[..i] !in files
  }

  function Members(entries: seq<Info>): Option<Files> {
    if AllAcceptable(entries) && NoConflict(FilesOf(entries)) then Some(FilesOf(entries)) else None
  }

  method ZipMembers(entries: seq<Info>) returns (r: Option<Files>)
    ensures r == Members(entries)
  {
    hide Acceptable, Fold, NoConflict;
    var files: Files := map[];
    var seen: set<string> := {};
    for i := 0 to |entries|
      invariant AllAcceptable(entries[..i])
      invariant files == FilesOf(entries[..i])
      invariant forall s :: s in seen <==> exists k :: 0 <= k < i && s == Fold(TrimSlashes(entries[k].filename))
    {
      var info := entries[i];
      var name := TrimSlashes(info.filename);
      assert entries[..i + 1][..i] == entries[..i] && entries[..i + 1][i] == info;
      if !Acceptable(info) || Fold(name) in seen {
        assert !AllAcceptable(entries);
        return None;
      }
      seen := seen + {Fold(name)};
      if !info.IsDir() {
        files := files[name := info.file];
      }
    }
    assert entries[..|entries|] == entries;
    var conflict := HasConflict(files);
    return if conflict then None else Some(files);
  }

  method HasConflict(files: Files) returns (conflict: bool)
    ensures conflict <==> !NoConflict(files)
  {
    conflict := false;
    var rest := files.Keys;
    while rest != {}
      invariant rest <= files.Keys
      invariant conflict <==> exists n, i :: n in files && n !in rest && 0 <= i < |n| && n[i] == '/' && n[..i] in files
    {
      var n :| n in rest;
      rest := rest - {n};
      for i := 0 to |n|
        invariant conflict <==> (exists m, k :: m in files && m !in rest && m != n && 0 <= k < |m| && m[k] == '/' && m[..k] in files)
                                || exists k :: 0 <= k < i && n[k] == '/' && n[..k] in files
      {
        if n[i] == '/' && n[..i] in files {
          conflict := true;
        }
      }
    }
  }

  /** Which archives are accepted: every name is safe, stored as it is shown, not encrypted, no special file and no
      directory by mode alone, and no two names are alike up to case; and no file lies below another file. */
  lemma AcceptableMeans(entries: seq<Info>)
    ensures AllAcceptable(entries) <==>
              && (forall i :: 0 <= i < |entries| ==>
                    var e := entries[i];
                    && SafeName(TrimSlashes(e.filename)) && e.sameAsStored && !e.encrypted
                    && (e.mode == NoMode || e.mode == Regular || (e.mode == Directory && e.filename[|e.filename| - 1] == '/')))
              && (forall i, k :: 0 <= i < k < |entries| ==> Fold(TrimSlashes(entries[i].filename)) != Fold(TrimSlashes(entries[k].filename)))
  {
    hide SafeName, Fold;
    forall i | 0 <= i < |entries| && SafeName(TrimSlashes(entries[i].filename)) ensures entries[i].filename != "" { HasName(entries[i].filename); }
  }

  /** A file with the name. */
  ghost predicate Holds(entries: seq<Info>, name: string) {
    exists i :: 0 <= i < |entries| && entries[i].filename == name && !(name != "" && name[|name| - 1] == '/')
  }

  /** The members of an accepted archive are its files by name, and none lies below another. */
  lemma MembersMean(entries: seq<Info>)
    ensures Members(entries).Some? <==> AllAcceptable(entries) && forall m, n :: Holds(entries, m) ==> !Holds(entries, m + "/" + n)
    ensures Members(entries).Some? ==> forall n :: n in Members(entries).value <==> Holds(entries, n)
    ensures Members(entries).Some? ==> forall i :: 0 <= i < |entries| && Holds(entries, entries[i].filename) ==> Members(entries).value[entries[i].filename] == entries[i].file
  {
    hide AllAcceptable, NoConflict;
    if AllAcceptable(entries) {
      FilesMean(entries);
      var files := FilesOf(entries);
      assert forall n :: n in files <==> Holds(entries, n);
      Conflicts(files);
    }
  }

  lemma Conflicts(files: Files)
    ensures NoConflict(files) <==> forall m, n :: m in files ==> m + "/" + n !in files
  {
    if NoConflict(files) {
      forall m, n | m in files ensures m + "/" + n !in files {
        var t := m + "/" + n;
        assert t[|m|] == '/' && t[..|m|] == m;
      }
    } else {
      var t, i :| t in files && 0 <= i < |t| && t[i] == '/' && t[..i] in files;
      assert t == t[..i] + "/" + t[i + 1..];
    }
  }

  lemma HasName(name: string)
    requires SafeName(TrimSlashes(name))
    ensures name != ""
  {
  }

  lemma {:induction false} FilesMean(entries: seq<Info>)
    requires AllAcceptable(entries)
    ensures forall i :: 0 <= i < |entries| && !entries[i].IsDir() ==>
              entries[i].filename in FilesOf(entries) && FilesOf(entries)[entries[i].filename] == entries[i].file
    ensures forall n :: n in FilesOf(entries) ==> exists i :: 0 <= i < |entries| && entries[i].filename == n && !entries[i].IsDir()
  {
    hide SafeName, Fold;
    if entries != [] {
      var n := |entries| - 1;
      var init, last := entries[..n], entries[n];
      assert AllAcceptable(init);
      FilesMean(init);
      assert Acceptable(last);
      forall i | 0 <= i < |entries| && !entries[i].IsDir()
        ensures entries[i].filename in FilesOf(entries) && FilesOf(entries)[entries[i].filename] == entries[i].file
      {
        if i < n {
          assert init[i] == entries[i] && Fold(TrimSlashes(entries[i].filename)) != Fold(TrimSlashes(last.filename));
        }
      }
      forall name | name in FilesOf(entries) ensures exists i :: 0 <= i < |entries| && entries[i].filename == name && !entries[i].IsDir() {
        if name in FilesOf(init) {
          var i :| 0 <= i < |init| && init[i].filename == name && !init[i].IsDir();
          assert entries[i] == init[i];
        } else {
          assert entries[n].filename == name;
        }
      }
    }
  }

  // ---- expanded layouts ----

  /** The inventory below a directory prefix. */
  function Prefixed(prefix: string, m: Inventory): Inventory {
    map t | t in (set n | n in m :: prefix + n) && |prefix| <= |t| && t[|prefix|..] in m :: m[t[|prefix|..]]
  }

  predicate WithinLimits(sources: Files, maxFiles: nat, bytes: nat) {
    |sources| <= maxFiles && bytes <= MAX_RUNTIME_BYTES
  }

  /** A runtime archive of the payload that the version does not hold as such is expected unpacked. */
  ghost function Unpack(expected: Inventory, members: Files, runtime: string, prefix: string, maxFiles: nat, names: set<string>): Option<Inventory> {
    if runtime !in members || runtime in names then Some(expected)
    else if members[runtime].size > MAX_RUNTIME_BYTES || !members[runtime].Zip? then None
    else
      match Members(members[runtime].entries)
      case None => None
      case Some(sources) =>
        var added := Prefixed(prefix, InventoryOf(sources));
        if !WithinLimits(sources, maxFiles, Bytes(InventoryOf(sources))) || added.Keys * (expected - {runtime}).Keys != {} then None
        else Some((expected - {runtime}) + added)
  }

  ghost function Expanded(payload: File, names: set<string>): Option<Inventory> {
    if !payload.Zip? then None
    else
      match Members(payload.entries)
      case None => None
      case Some(members) =>
        match Unpack(InventoryOf(members), members, KAGGLE_RUNTIME, KAGGLE_PREFIX, 32, names)
        case None => None
        case Some(once) => Unpack(once, members, P6_RUNTIME, P6_PREFIX, 128, names)
  }

  method UnpackRuntime(expected: Inventory, members: Files, runtime: string, prefix: string, maxFiles: nat, names: set<string>)
    returns (r: Option<Inventory>)
    ensures r == Unpack(expected, members, runtime, prefix, maxFiles, names)
  {
    hide Members, Acceptable, WithinLimits;
    if runtime !in members || runtime in names {
      return Some(expected);
    }
    var package := members[runtime];
    if package.size > MAX_RUNTIME_BYTES || !package.Zip? {
      return None;
    }
    var read := ZipMembers(package.entries);
    if read.None? {
      return None;
    }
    var sources := read.value;
    var inventory := InventoryOf(sources);
    var bytes := SumBytes(inventory);
    if !WithinLimits(sources, maxFiles, bytes) {
      return None;
    }
    r := MergeUnder(expected - {runtime}, prefix, inventory);
  }

  /** Adds the members below the prefix; a name that is already taken is a conflict. */
  method MergeUnder(kept: Inventory, prefix: string, inventory: Inventory) returns (r: Option<Inventory>)
    ensures var added := Prefixed(prefix, inventory);
      r == if added.Keys * kept.Keys != {} then None else Some(kept + added)
  {
    hide Prefixed;
    var result := kept;
    ghost var added := Prefixed(prefix, inventory);
    var rest := inventory.Keys;
    while rest != {}
      invariant rest <= inventory.Keys
      invariant forall t :: t in result <==> t in kept || (exists n :: n in inventory && n !in rest && t == prefix + n)
      invariant forall t :: t in result && t in kept ==> result[t] == kept[t]
      invariant forall n :: n in inventory && n !in rest ==> prefix + n in result && prefix + n !in kept && result[prefix + n] == inventory[n]
    {
      var name :| name in rest;
      rest := rest - {name};
      var target := prefix + name;
      PrefixedAt(prefix, inventory, name);
      assert forall n :: n in inventory && prefix + n == target ==> n == name by { PrefixInjective(prefix, inventory, name); }
      if target in result {
        assert target in added.Keys * kept.Keys;
        return None;
      }
      result := result[target := inventory[name]];
    }
    MergedAll(kept, prefix, inventory, result);
    return Some(result);
  }

  lemma MergedAll(kept: Inventory, prefix: string, inventory: Inventory, result: Inventory)
    requires forall t :: t in result <==> t in kept || (exists n :: n in inventory && t == prefix + n)
    requires forall t :: t in result && t in kept ==> result[t] == kept[t]
    requires forall n :: n in inventory ==> prefix + n in result && prefix + n !in kept && result[prefix + n] == inventory[n]
    ensures var added := Prefixed(prefix, inventory); added.Keys * kept.Keys == {} && result == kept + added
  {
    hide Prefixed;
    var added := Prefixed(prefix, inventory);
    forall n | n in inventory ensures prefix + n in added && added[prefix + n] == inventory[n] {
      PrefixedAt(prefix, inventory, n);
    }
    forall t | t in added ensures exists n :: n in inventory && t == prefix + n && added[t] == inventory[n] {
      PrefixedFrom(prefix, inventory, t);
    }
    assert result == kept + added;
  }

  lemma PrefixInjective(prefix: string, m: Inventory, name: string)
    ensures forall n :: n in m && prefix + n == prefix + name ==> n == name
  {
    forall n | n in m && prefix + n == prefix + name ensures n == name {
      assert (prefix + n)[|prefix|..] == n && (prefix + name)[|prefix|..] == name;
    }
  }

  lemma PrefixedAt(prefix: string, m: Inventory, n: string)
    requires n in m
    ensures prefix + n in Prefixed(prefix, m) && Prefixed(prefix, m)[prefix + n] == m[n]
  {
    assert (prefix + n)[|prefix|..] == n;
  }

  lemma PrefixedFrom(prefix: string, m: Inventory, t: string)
    requires t in Prefixed(prefix, m)
    ensures |prefix| <= |t| && t[..|prefix|] == prefix && t[|prefix|..] in m && Prefixed(prefix, m)[t] == m[t[|prefix|..]]
    ensures t == prefix + t[|prefix|..]
  {
    var n :| n in m && t == prefix + n;
    assert t[|prefix|..] == n && t[..|prefix|] == prefix;
  }

  method ExpandedInventory(payload: File, names: set<string>) returns (r: Option<Inventory>)
    ensures r == Expanded(payload, names)
  {
    hide Members, Unpack;
    if !payload.Zip? {
      return None;
    }
    var read := ZipMembers(payload.entries);
    if read.None? {
      return None;
    }
    r := UnpackRuntime(InventoryOf(read.value), read.value, KAGGLE_RUNTIME, KAGGLE_PREFIX, 32, names);
    if r.Some? {
      r := UnpackRuntime(r.value, read.value, P6_RUNTIME, P6_PREFIX, 128, names);
    }
  }

  // ---- the two verifiers ----

  /** The dataset directory: a payload.zip, or loose files by relative path.  linked: the payload or the
      directory itself is a symbolic link; inner: some file below it is. */
  datatype Upload = Payload(file: File, linked: bool) | Loose(files: Files, linked: bool, inner: bool)

  function WithoutMetadata(files: Files): Files {
    map n | n in files && !NamedMetadata(n) :: files[n]
  }

  /** path.name == "dataset-metadata.json", in any directory. */
  predicate NamedMetadata(n: string) {
    n == METADATA || (|n| > |METADATA| && n[|n| - |METADATA| - 1..] == "/" + METADATA)
  }

  /** What upload_content_inventory expects of a version with these file names. */
  ghost function UploadInventory(upload: Upload, names: set<string>): Option<Inventory> {
    if upload.linked then None
    else
      match upload
      case Payload(file, _) => if PAYLOAD in names then Some(map[PAYLOAD := Entry(file.size, file)]) else Expanded(file, names)
      case Loose(files, _, inner) => if inner then None else Some(InventoryOf(WithoutMetadata(files)))
  }

  method UploadContentInventory(upload: Upload, names: set<string>) returns (r: Option<Inventory>)
    ensures r == UploadInventory(upload, names)
  {
    hide Expanded;
    if upload.linked {
      return None;
    }
    match upload {
      case Payload(file, _) =>
        if PAYLOAD in names {
          return Some(map[PAYLOAD := Entry(file.size, file)]);
        }
        r := ExpandedInventory(file, names);
      case Loose(files, _, inner) =>
        r := if inner then None else Some(InventoryOf(WithoutMetadata(files)));
    }
  }

  /** Same names, and each name the expected size and digest. */
  method VerifyInventory(actual: Files, expected: Inventory) returns (ok: bool)
    ensures ok <==> InventoryOf(actual) == expected
  {
    if actual.Keys != expected.Keys {
      return false;
    }
    var rest := expected.Keys;
    while rest != {}
      invariant rest <= expected.Keys
      invariant forall n :: n in expected && n !in rest ==> expected[n] == InventoryOf(actual)[n]
    {
      var n :| n in rest;
      rest := rest - {n};
      if actual[n].size != expected[n].size || actual[n] != expected[n].digest {
        assert InventoryOf(actual)[n] != expected[n];
        return false;
      }
    }
    return true;
  }

  method VerifyPayloadArchive(payload: File, remote: seq<Info>) returns (ok: bool)
    ensures ok <==> ArchiveAccepts(Payload(payload, false), remote)
  {
    hide Members, Expanded;
    var actual := ZipMembers(remote);
    if actual.None? {
      return false;
    }
    if PAYLOAD in actual.value {
      ok := actual.value.Keys == {PAYLOAD} && actual.value[PAYLOAD].size == payload.size && actual.value[PAYLOAD] == payload;
      return ok;
    }
    var expected := ExpandedInventory(payload, actual.value.Keys);
    if expected.None? {
      return false;
    }
    ok := VerifyInventory(actual.value, expected.value);
  }

  method VerifyUploadArchive(upload: Upload, remote: seq<Info>) returns (ok: bool)
    ensures ok <==> ArchiveAccepts(upload, remote)
  {
    hide Members, Expanded;
    match upload {
      case Payload(file, _) => ok := VerifyPayloadArchive(file, remote);
      case Loose(files, _, inner) =>
        if inner {
          return false;
        }
        var actual := ZipMembers(remote);
        if actual.None? {
          return false;
        }
        ok := VerifyInventory(actual.value, InventoryOf(WithoutMetadata(files)));
    }
  }

  /** The whole-archive verifier. */
  ghost predicate ArchiveAccepts(upload: Upload, remote: seq<Info>) {
    var actual := Members(remote);
    && actual.Some?
    && match upload
       case Payload(payload, _) =>
         if PAYLOAD in actual.value then actual.value.Keys == {PAYLOAD} && actual.value[PAYLOAD] == payload
         else Expanded(payload, actual.value.Keys) == Some(InventoryOf(actual.value))
       case Loose(files, _, inner) => !inner && InventoryOf(actual.value) == InventoryOf(WithoutMetadata(files))
  }

  /** The per-file verifier on a version with these contents: every listed file has the expected size and digest. */
  ghost predicate FilesAccept(upload: Upload, version: Files) {
    version != map[] && UploadInventory(upload, version.Keys) == Some(InventoryOf(version))
  }

  /** content_digest raises on any symbolic link, and verify_dataset_content takes the digest before it looks at Kaggle. */
  predicate Digestible(upload: Upload) {
    !upload.linked && (upload.Loose? ==> !upload.inner)
  }

  /** verify_dataset_content on a version with these entries, by the route that Kaggle offers. */
  ghost predicate ContentVerified(upload: Upload, remote: seq<Info>, archiveServed: bool) {
    && Digestible(upload)
    && if archiveServed then ArchiveAccepts(upload, remote)
       else Members(remote).Some? && FilesAccept(upload, Members(remote).value)
  }

  /** Whether Kaggle serves the archive or only single files does not change which non-empty versions are accepted. */
  lemma RouteDoesNotMatter(upload: Upload, remote: seq<Info>, version: Files)
    requires Members(remote) == Some(version) && version != map[]
    ensures ContentVerified(upload, remote, true) <==> ContentVerified(upload, remote, false)
  {
    hide Members, ArchiveAccepts, FilesAccept;
    VerifiersAgree(upload, remote, version);
  }

  /** On every non-empty version the two verifiers agree exactly unless the upload is a symbolic link that the archive
      verifier accepts; the per-file verifier refuses every link. */
  lemma VerifiersAgree(upload: Upload, remote: seq<Info>, version: Files)
    requires Members(remote) == Some(version) && version != map[]
    ensures (ArchiveAccepts(upload, remote) <==> FilesAccept(upload, version)) <==> !upload.linked || !ArchiveAccepts(upload, remote)
  {
    hide Members, Expanded;
    if upload.Payload? && PAYLOAD in version {
      var one := map[PAYLOAD := Entry(upload.file.size, upload.file)];
      if version.Keys == {PAYLOAD} && version[PAYLOAD] == upload.file {
        assert InventoryOf(version) == one;
      }
      if InventoryOf(version) == one {
        assert version.Keys == InventoryOf(version).Keys == {PAYLOAD};
        assert InventoryOf(version)[PAYLOAD].digest == version[PAYLOAD];
      }
    }
  }

  /** A linked payload on which the verifiers by themselves differ; it is not Digestible, so neither is ever called on it. */
  lemma LinkedPayloadDiffers(file: File)
    ensures var upload, remote, version := Payload(file, true), [Info(PAYLOAD, true, false, Regular, file)], map[PAYLOAD := file];
      && Members(remote) == Some(version) && ArchiveAccepts(upload, remote) && !FilesAccept(upload, version)
      && forall served :: !ContentVerified(upload, remote, served)
  {
    var remote := [Info(PAYLOAD, true, false, Regular, file)];
    assert SafeName(PAYLOAD) by {
      assert forall i, j :: PartAt(PAYLOAD, i, j) ==> i == 0 && j == |PAYLOAD|;
    }
    assert remote[..0] == [];
    assert FilesOf(remote) == map[PAYLOAD := file];
  }

  // ---- every accepted version has the payload's content ----

  /** Members of a nested archive, as far as it can be read. */
  function Nested(file: File): Files {
    if file.Zip? && Members(file.entries).Some? then Members(file.entries).value else map[]
  }

  /** Replaces one runtime archive by its members. */
  function Opened(m: Inventory, runtime: string, prefix: string): Inventory {
    if runtime in m then (m - {runtime}) + Prefixed(prefix, InventoryOf(Nested(m[runtime].digest))) else m
  }

  function FullyOpened(m: Inventory): Inventory {
    Opened(Opened(m, KAGGLE_RUNTIME, KAGGLE_PREFIX), P6_RUNTIME, P6_PREFIX)
  }

  /** The content of a version: its payload.zip, if that is all it holds, and both runtimes unpacked. */
  function Content(version: Files): Inventory {
    if version.Keys == {PAYLOAD} then FullyOpened(InventoryOf(Nested(version[PAYLOAD]))) else FullyOpened(InventoryOf(version))
  }

  lemma PrefixesApart(m: Inventory, n: Inventory)
    ensures Prefixed(KAGGLE_PREFIX, m).Keys !! Prefixed(P6_PREFIX, n).Keys
    ensures KAGGLE_RUNTIME !in Prefixed(KAGGLE_PREFIX, m) && P6_RUNTIME !in Prefixed(KAGGLE_PREFIX, m)
    ensures KAGGLE_RUNTIME !in Prefixed(P6_PREFIX, m) && P6_RUNTIME !in Prefixed(P6_PREFIX, m)
  {
    hide Prefixed;
    forall t | t in Prefixed(KAGGLE_PREFIX, m) ensures |t| >= 36 && t[13] == 'k' && t[35] == '/' {
      PrefixedFrom(KAGGLE_PREFIX, m, t);
      assert t[..36][13] == 'k' && t[..36][35] == '/';
    }
    forall t | t in Prefixed(P6_PREFIX, n) ensures |t| >= 32 && t[13] == 'p' {
      PrefixedFrom(P6_PREFIX, n, t);
      assert t[..32][13] == 'p';
    }
    forall t | t in Prefixed(P6_PREFIX, m) ensures |t| >= 32 && t[13] == 'p' && t[31] == '/' {
      PrefixedFrom(P6_PREFIX, m, t);
      assert t[..32][13] == 'p' && t[..32][31] == '/';
    }
    assert KAGGLE_RUNTIME[13] == 'k' && KAGGLE_RUNTIME[35] == '.' && P6_RUNTIME[13] == 'p' && P6_RUNTIME[31] == '.';
  }

  /** The runtimes can be opened in either order. */
  lemma OpenedCommutes(m: Inventory)
    ensures Opened(Opened(m, KAGGLE_RUNTIME, KAGGLE_PREFIX), P6_RUNTIME, P6_PREFIX)
         == Opened(Opened(m, P6_RUNTIME, P6_PREFIX), KAGGLE_RUNTIME, KAGGLE_PREFIX)
  {
    hide Prefixed, Nested, InventoryOf;
    var k := if KAGGLE_RUNTIME in m then Prefixed(KAGGLE_PREFIX, InventoryOf(Nested(m[KAGGLE_RUNTIME].digest))) else map[];
    var p := if P6_RUNTIME in m then Prefixed(P6_PREFIX, InventoryOf(Nested(m[P6_RUNTIME].digest))) else map[];
    RuntimesApart(m, k, p);
    if KAGGLE_RUNTIME in m && P6_RUNTIME in m {
      assert ((m - {KAGGLE_RUNTIME}) + k) - {P6_RUNTIME} + p == ((m - {P6_RUNTIME}) + p) - {KAGGLE_RUNTIME} + k;
    }
  }

  lemma RuntimesApart(m: Inventory, k: Inventory, p: Inventory)
    requires KAGGLE_RUNTIME in m ==> k == Prefixed(KAGGLE_PREFIX, InventoryOf(Nested(m[KAGGLE_RUNTIME].digest)))
    requires P6_RUNTIME in m ==> p == Prefixed(P6_PREFIX, InventoryOf(Nested(m[P6_RUNTIME].digest)))
    ensures KAGGLE_RUNTIME != P6_RUNTIME
    ensures KAGGLE_RUNTIME in m ==> KAGGLE_RUNTIME !in k && P6_RUNTIME !in k
    ensures P6_RUNTIME in m ==> KAGGLE_RUNTIME !in p && P6_RUNTIME !in p
    ensures KAGGLE_RUNTIME in m && P6_RUNTIME in m ==> k.Keys !! p.Keys
  {
    hide Prefixed, Nested, InventoryOf;
    assert KAGGLE_RUNTIME[13] == 'k' && P6_RUNTIME[13] == 'p';
    if KAGGLE_RUNTIME in m { PrefixesApart(InventoryOf(Nested(m[KAGGLE_RUNTIME].digest)), map[]); }
    if P6_RUNTIME in m { PrefixesApart(InventoryOf(Nested(m[P6_RUNTIME].digest)), map[]); }
    if KAGGLE_RUNTIME in m && P6_RUNTIME in m {
      PrefixesApart(InventoryOf(Nested(m[KAGGLE_RUNTIME].digest)), InventoryOf(Nested(m[P6_RUNTIME].digest)));
    }
  }

  /** What Unpack expects is the inventory itself or the inventory with that runtime opened. */
  lemma UnpackOpens(expected: Inventory, members: Files, runtime: string, prefix: string, maxFiles: nat, names: set<string>)
    requires Unpack(expected, members, runtime, prefix, maxFiles, names).Some?
    requires runtime in members ==> runtime in expected && expected[runtime].digest == members[runtime]
    requires runtime !in members ==> runtime !in expected
    ensures Unpack(expected, members, runtime, prefix, maxFiles, names).value
         == if runtime in names then expected else Opened(expected, runtime, prefix)
  {
    hide Members, Prefixed, InventoryOf;
  }

  lemma {:induction false} OpenedTwice(m: Inventory)
    ensures Opened(Opened(m, KAGGLE_RUNTIME, KAGGLE_PREFIX), KAGGLE_RUNTIME, KAGGLE_PREFIX) == Opened(m, KAGGLE_RUNTIME, KAGGLE_PREFIX)
    ensures Opened(Opened(m, P6_RUNTIME, P6_PREFIX), P6_RUNTIME, P6_PREFIX) == Opened(m, P6_RUNTIME, P6_PREFIX)
    ensures P6_RUNTIME in Opened(m, KAGGLE_RUNTIME, KAGGLE_PREFIX) <==> P6_RUNTIME in m
    ensures P6_RUNTIME in m ==> Opened(m, KAGGLE_RUNTIME, KAGGLE_PREFIX)[P6_RUNTIME] == m[P6_RUNTIME]
  {
    hide Prefixed, Nested, InventoryOf;
    if KAGGLE_RUNTIME in m { PrefixesApart(InventoryOf(Nested(m[KAGGLE_RUNTIME].digest)), map[]); }
    if P6_RUNTIME in m { PrefixesApart(InventoryOf(Nested(m[P6_RUNTIME].digest)), map[]); }
    assert KAGGLE_RUNTIME[13] == 'k' && P6_RUNTIME[13] == 'p';
  }

  /** Which expanded inventories there are: each runtime either stays an archive or is opened. */
  lemma ExpandedLayouts(payload: File, names: set<string>)
    requires Expanded(payload, names).Some?
    ensures payload.Zip? && Members(payload.entries).Some?
    ensures var m := InventoryOf(Nested(payload));
      var once := if KAGGLE_RUNTIME in names then m else Opened(m, KAGGLE_RUNTIME, KAGGLE_PREFIX);
      Expanded(payload, names).value == if P6_RUNTIME in names then once else Opened(once, P6_RUNTIME, P6_PREFIX)
  {
    hide Members, Prefixed, Opened, Unpack, InventoryOf;
    var members := Nested(payload);
    var m := InventoryOf(members);
    InventoryLookup(members);
    UnpackOpens(m, members, KAGGLE_RUNTIME, KAGGLE_PREFIX, 32, names);
    var once := if KAGGLE_RUNTIME in names then m else Opened(m, KAGGLE_RUNTIME, KAGGLE_PREFIX);
    OpenedTwice(m);
    UnpackOpens(once, members, P6_RUNTIME, P6_PREFIX, 128, names);
  }

  lemma InventoryLookup(files: Files)
    ensures forall n :: n in InventoryOf(files) <==> n in files
    ensures forall n :: n in files ==> InventoryOf(files)[n].digest == files[n]
  {
  }

  /** Every version accepted for a payload, in whichever layout, has the payload's fully unpacked content. */
  lemma AcceptedContent(payload: File, version: Files)
    requires FilesAccept(Payload(payload, false), version)
    ensures Content(version) == FullyOpened(InventoryOf(Nested(payload)))
  {
    hide Opened, Nested, Members, Expanded;
    if PAYLOAD in version {
      assert version.Keys == InventoryOf(version).Keys == {PAYLOAD};
      assert InventoryOf(version)[PAYLOAD].digest == version[PAYLOAD];
    } else {
      var m := InventoryOf(Nested(payload));
      ExpandedLayouts(payload, version.Keys);
      OpenedTwice(m);
      OpenedTwice(Opened(m, KAGGLE_RUNTIME, KAGGLE_PREFIX));
      OpenedTwice(Opened(m, P6_RUNTIME, P6_PREFIX));
      OpenedCommutes(m);
      OpenedCommutes(Opened(m, P6_RUNTIME, P6_PREFIX));
    }
  }

  /** The accepted versions are exactly these: the payload itself, or its members with any of the runtimes that
      are small and sound enough opened and the others kept. */
  lemma AcceptedLayouts(payload: File, version: Files)
    ensures FilesAccept(Payload(payload, false), version) <==>
              version != map[] && (if PAYLOAD in version then version == map[PAYLOAD := payload]
                                   else Expanded(payload, {KAGGLE_RUNTIME, P6_RUNTIME} * version.Keys) == Some(InventoryOf(version)))
  {
    hide Members, Prefixed, InventoryOf;
    if PAYLOAD in version {
      InventoryLookup(version);
      InventoryLookup(map[PAYLOAD := payload]);
      if InventoryOf(version) == map[PAYLOAD := Entry(payload.size, payload)] {
        OnlyPayload(version, payload);
      } else if version == map[PAYLOAD := payload] {
        PayloadInventory(payload);
      }
    }
  }

  lemma OnlyPayload(version: Files, payload: File)
    requires InventoryOf(version) == map[PAYLOAD := Entry(payload.size, payload)]
    ensures version == map[PAYLOAD := payload]
  {
    PayloadInventory(payload);
    InventoryInjective(version, map[PAYLOAD := payload]);
  }

  lemma PayloadInventory(payload: File)
    ensures InventoryOf(map[PAYLOAD := payload]) == map[PAYLOAD := Entry(payload.size, payload)]
  {
  }

  // ---- which uploads can be expected unpacked at all ----

  /** The runtime can be unpacked into the payload: at most 4 MiB packed and unpacked, at most maxFiles files, and no
      unpacked file takes the name of another member. */
  ghost predicate CanOpen(members: Files, runtime: string, prefix: string, maxFiles: nat) {
    runtime in members ==>
      && members[runtime].Zip? && members[runtime].size <= 4194304
      && Members(members[runtime].entries).Some?
      && |Nested(members[runtime])| <= maxFiles && Bytes(InventoryOf(Nested(members[runtime]))) <= 4194304
      && forall n :: n in Nested(members[runtime]) ==> prefix + n !in members
  }

  lemma UnpackExactly(expected: Inventory, members: Files, runtime: string, prefix: string, maxFiles: nat, names: set<string>)
    requires |prefix| > 0 && prefix[|prefix| - 1] == '/' && (runtime != "" ==> runtime[|runtime| - 1] != '/')
    requires forall n :: runtime in members && n in Nested(members[runtime]) ==> (prefix + n in expected <==> prefix + n in members) && prefix + n != runtime
    ensures Unpack(expected, members, runtime, prefix, maxFiles, names).Some? <==> runtime in names || CanOpen(members, runtime, prefix, maxFiles)
  {
    hide Members, Prefixed, InventoryOf;
    if runtime in members {
      var inventory := InventoryOf(Nested(members[runtime]));
      InventoryLookup(Nested(members[runtime]));
      forall n | n in inventory ensures prefix + n in Prefixed(prefix, inventory) { PrefixedAt(prefix, inventory, n); }
      forall t | t in Prefixed(prefix, inventory) ensures exists n :: n in inventory && t == prefix + n { PrefixedFrom(prefix, inventory, t); }
    }
  }

  /** Which payloads have an expected inventory when the version does not hold payload.zip itself: an archive with
      acceptable members whose runtimes are both either held as they are or small and free of collisions. */
  lemma ExpandedExactly(payload: File, names: set<string>)
    ensures Expanded(payload, names).Some? <==>
              && payload.Zip? && Members(payload.entries).Some?
              && ("model_source/kaggle_runtime/runtime.zip" in names ||
                  CanOpen(Nested(payload), "model_source/kaggle_runtime/runtime.zip", "model_source/kaggle_runtime/runtime/", 32))
              && ("model_source/p6_runtime/runtime.zip" in names ||
                  CanOpen(Nested(payload), "model_source/p6_runtime/runtime.zip", "model_source/p6_runtime/runtime/", 128))
  {
    hide Members, Prefixed, InventoryOf, Unpack, CanOpen;
    if payload.Zip? && Members(payload.entries).Some? {
      var members := Nested(payload);
      var m := InventoryOf(members);
      InventoryLookup(members);
      NotTheRuntime(KAGGLE_PREFIX, KAGGLE_RUNTIME);
      NotTheRuntime(P6_PREFIX, P6_RUNTIME);
      UnpackExactly(m, members, KAGGLE_RUNTIME, KAGGLE_PREFIX, 32, names);
      var once := Unpack(m, members, KAGGLE_RUNTIME, KAGGLE_PREFIX, 32, names);
      if once.Some? {
        UnpackOpens(m, members, KAGGLE_RUNTIME, KAGGLE_PREFIX, 32, names);
        BelowP6(m, once.value);
        UnpackExactly(once.value, members, P6_RUNTIME, P6_PREFIX, 128, names);
      }
    }
  }

  lemma NotTheRuntime(prefix: string, runtime: string)
    requires 0 < |prefix| && (|prefix| <= |runtime| ==> prefix[|prefix| - 1] != runtime[|prefix| - 1])
    ensures forall n :: prefix + n != runtime
  {
    forall n ensures prefix + n != runtime {
      assert (prefix + n)[|prefix| - 1] == prefix[|prefix| - 1];
    }
  }

  /** Opening the other runtime does not change which names below this one's directory are taken. */
  lemma BelowP6(m: Inventory, once: Inventory)
    requires once == m || once == Opened(m, KAGGLE_RUNTIME, KAGGLE_PREFIX)
    ensures forall n :: P6_PREFIX + n in once <==> P6_PREFIX + n in m
  {
    hide Prefixed, Nested, InventoryOf;
    forall n ensures P6_PREFIX + n in once <==> P6_PREFIX + n in m {
      assert (P6_PREFIX + n)[13] == P6_PREFIX[13] == 'p' && KAGGLE_RUNTIME[13] == 'k';
      if KAGGLE_RUNTIME in m {
        var added := Prefixed(KAGGLE_PREFIX, InventoryOf(Nested(m[KAGGLE_RUNTIME].digest)));
        if P6_PREFIX + n in added {
          PrefixedFrom(KAGGLE_PREFIX, InventoryOf(Nested(m[KAGGLE_RUNTIME].digest)), P6_PREFIX + n);
          assert (P6_PREFIX + n)[..|KAGGLE_PREFIX|][13] == 'k';
        }
      }
    }
  }

  /** A loose upload is accepted as exactly its own files, except those named dataset-metadata.json in any directory. */
  lemma LooseAccepted(files: Files, version: Files)
    ensures FilesAccept(Loose(files, false, false), version) <==>
              && version != map[]
              && (forall n :: n in version ==> n in files && version[n] == files[n])
              && (forall n :: n in files ==> (n in version <==> n != "dataset-metadata.json" && forall dir :: n != dir + "/dataset-metadata.json"))
  {
    var kept := WithoutMetadata(files);
    forall n ensures NamedMetadata(n) <==> n == "dataset-metadata.json" || exists dir :: n == dir + "/dataset-metadata.json" {
      MetadataName(n);
    }
    if InventoryOf(version) == InventoryOf(kept) { InventoryInjective(version, kept); }
    if version != map[] && (forall n :: n in version ==> n in files && version[n] == files[n]) && (forall n :: n in files ==> (n in version <==> !NamedMetadata(n))) {
      assert version == kept;
    }
  }

  lemma MetadataName(n: string)
    ensures NamedMetadata(n) <==> n == "dataset-metadata.json" || exists dir :: n == dir + "/dataset-metadata.json"
  {
    var tail := "/" + METADATA;
    assert tail == "/dataset-metadata.json";
    var k := |n| - |tail|;
    if |n| > |METADATA| && n[k..] == tail {
      assert n == n[..k] + "/dataset-metadata.json";
    }
    forall dir | n == dir + tail ensures NamedMetadata(n) {
      assert n[|dir|..] == tail;
    }
  }
}
