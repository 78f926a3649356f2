/** Verifying a published version file by file: the paged listing, the resumable batches, and what
    acceptance proves about the bytes that were read. */
module FileVerification {
  import opened Basics
  import opened Options
  import opened Contents
  import opened VerificationStore
  import PayloadContract

  const BATCH := 64
  const MAX_FILES := 100000

  // ---- the paged listing ----

  datatype Token = NoToken | Text(text: string) | NotText
  datatype Item = Item(name: Option<string>, size: Option<int>)   // None: not of the expected type
  datatype Page = Page(error: bool, files: Option<seq<Item>>, next: Token)
  datatype Listing = Listed(sizes: map<string, nat>) | Empty | Refused | Interrupted

  predicate GoodItem(i: Item) {
    i.name.Some? && SafeName(i.name.value) && i.size.Some? && i.size.value >= 0
  }

  function NameOf(i: Item): string {
    if i.name.Some? then i.name.value else ""
  }

  function SizeOf(i: Item): nat {
    if i.size.Some? && i.size.value >= 0 then i.size.value else 0
  }

  function ItemFold(i: Item): string {
    Fold(NameOf(i))
  }

  predicate Last(p: Page) {
    p.next.NoToken? || p.next == Text("")
  }

  predicate GoodPage(p: Page) {
    !p.error && p.files.Some?
  }

  /** All items of the first n pages. */
  function Items(pages: nat -> Page, n: nat): seq<Item> {
    if n == 0 then [] else Items(pages, n - 1) + if pages(n - 1).files.Some? then pages(n - 1).files.value else []
  }

  predicate GoodItems(items: seq<Item>) {
    && (forall i :: 0 <= i < |items| ==> GoodItem(items[i]))
    && (forall i, k :: 0 <= i < k < |items| ==> ItemFold(items[i]) != ItemFold(items[k]))
  }

  function SizesOf(items: seq<Item>): map<string, nat> {
    if items == [] then map[]
    else SizesOf(items[..|items| - 1])[NameOf(items[|items| - 1]) := SizeOf(items[|items| - 1])]
  }

  /** The first n pages are one complete, well-formed listing with these sizes. */
  ghost predicate Complete(pages: nat -> Page, n: nat, sizes: map<string, nat>) {
    && n > 0 && (forall i :: 0 <= i < n ==> GoodPage(pages(i)))
    && (forall i :: 0 <= i < n - 1 ==> pages(i).next.Text? && pages(i).next.text != "")
    && (forall i, k :: 0 <= i < k < n - 1 ==> pages(i).next != pages(k).next)
    && Last(pages(n - 1))
    && GoodItems(Items(pages, n)) && sizes == SizesOf(Items(pages, n))
    && 0 < |sizes| <= MAX_FILES
  }

  /** The first n pages are well formed so far and ask for another one. */
  ghost predicate Continues(pages: nat -> Page, n: nat) {
    && (forall i :: 0 <= i < n ==> GoodPage(pages(i)) && pages(i).next.Text? && pages(i).next.text != "")
    && (forall i, k :: 0 <= i < k < n ==> pages(i).next != pages(k).next)
    && GoodItems(Items(pages, n)) && |SizesOf(Items(pages, n))| <= MAX_FILES
  }

  /** What reading at most `patience` pages comes to. */
  ghost predicate Answers(pages: nat -> Page, patience: nat, r: Listing) {
    match r
    case Listed(sizes) => exists n: nat :: n <= patience && Complete(pages, n, sizes)
    case Empty => exists n: nat :: n < patience && Continues(pages, n) && GoodPage(pages(n)) && Last(pages(n)) && Items(pages, n + 1) == []
    case Interrupted => Continues(pages, patience)
    case Refused =>
      exists n: nat :: n < patience && Continues(pages, n) && !Continues(pages, n + 1)
        && !(GoodPage(pages(n)) && Last(pages(n)) && GoodItems(Items(pages, n + 1)) && |SizesOf(Items(pages, n + 1))| <= MAX_FILES)
  }

  /** Reads pages until there is no next token; the interruption check stops it after `patience` requests.
      It returns a listing exactly when the pages are a complete well-formed one. */
  method VersionFileInventory(pages: nat -> Page, patience: nat) returns (r: Listing)
    ensures Answers(pages, patience, r)
    ensures forall n: nat, m :: n <= patience && Complete(pages, n, m) ==> r == Listed(m)
  {
    hide GoodItem, Fold, Items, SizesOf, GoodItems, Continues, Complete, Answers, GoodSizes, Folded;
    var sizes: map<string, nat> := map[];
    var names: set<string> := {};
    var tokens: set<string> := {};
    NothingYet(pages);
    for call := 0 to patience
      invariant Continues(pages, call) && Seen(pages, call, tokens)
      invariant Folded(names, Items(pages, call)) && GoodSizes(Items(pages, call), sizes)
    {
      var page := pages(call);
      if !GoodPage(page) {
        RefusedAt(pages, call, patience);
        return Refused;
      }
      ghost var before := Items(pages, call);
      NextItems(pages, call);
      var refused: bool;
      refused, sizes, names := ReadItems(page.files.value, before, sizes, names);
      if refused {
        RefusedAt(pages, call, patience);
        return Refused;
      }
      ReadSoFar(Items(pages, call + 1), sizes);
      if |sizes| > MAX_FILES {
        RefusedAt(pages, call, patience);
        return Refused;
      }
      if Last(page) {
        EndsAt(pages, call, patience, sizes);
        if sizes == map[] {
          return Empty;
        }
        return Listed(sizes);
      }
      if page.next.NotText? || page.next.text in tokens {
        RefusedAt(pages, call, patience);
        return Refused;
      }
      GoesOn(pages, call, tokens);
      tokens := tokens + {page.next.text};
    }
    StillReading(pages, patience);
    return Interrupted;
  }

  /** The tokens of the pages read so far. */
  predicate Seen(pages: nat -> Page, n: nat, tokens: set<string>) {
    && (forall t :: t in tokens ==> exists i :: 0 <= i < n && pages(i).next == Text(t))
    && (forall i :: 0 <= i < n && pages(i).next.Text? ==> pages(i).next.text in tokens)
  }

  /** No listing of at most `patience` pages is complete. */
  ghost predicate NoListing(pages: nat -> Page, patience: nat) {
    forall n: nat, m :: n <= patience ==> !Complete(pages, n, m)
  }

  /** A page that is bad, has a bad file or too many of them, or asks for a page that was read already, ends it. */
  lemma RefusedAt(pages: nat -> Page, call: nat, patience: nat)
    requires call < patience && Continues(pages, call)
    requires var items := Items(pages, call + 1);
      || !GoodPage(pages(call)) || !GoodItems(items) || |SizesOf(items)| > MAX_FILES
      || (!Last(pages(call)) && (pages(call).next.NotText? || exists i :: 0 <= i < call && pages(i).next == pages(call).next))
    ensures Answers(pages, patience, Refused) && NoListing(pages, patience)
  {
    hide GoodItem, Fold, Items, SizesOf;
    var items := Items(pages, call + 1);
    if GoodPage(pages(call)) {
      if !GoodItems(items) {
        NeverComplete(pages, call, patience);
      } else if |SizesOf(items)| > MAX_FILES {
        TooMany(pages, call, patience, SizesOf(items));
      } else {
        forall n: nat, m | n <= patience && Complete(pages, n, m) ensures false { }
      }
      assert !Continues(pages, call + 1);
    } else {
      forall n: nat, m | n <= patience && Complete(pages, n, m) ensures false { }
      assert !Continues(pages, call + 1);
    }
  }

  lemma ReadSoFar(items: seq<Item>, sizes: map<string, nat>)
    requires GoodSizes(items, sizes)
    ensures GoodItems(items) && sizes == SizesOf(items)
  {
    hide GoodItems;
  }

  /** A last page completes the listing, or leaves it empty. */
  lemma EndsAt(pages: nat -> Page, call: nat, patience: nat, sizes: map<string, nat>)
    requires call < patience && Continues(pages, call) && GoodPage(pages(call)) && Last(pages(call))
    requires GoodSizes(Items(pages, call + 1), sizes) && |sizes| <= MAX_FILES
    ensures forall n: nat, m :: Complete(pages, n, m) ==> m == sizes && m != map[]
    ensures Answers(pages, patience, if sizes == map[] then Empty else Listed(sizes))
  {
    hide GoodItem, Fold, Items, SizesOf, GoodItems;
    LastPage(pages, call, sizes);
    if sizes == map[] {
      NoSizes(Items(pages, call + 1));
    } else {
      assert Complete(pages, call + 1, sizes);
    }
  }

  lemma GoesOn(pages: nat -> Page, call: nat, tokens: set<string>)
    requires Continues(pages, call) && Seen(pages, call, tokens) && GoodPage(pages(call))
    requires !Last(pages(call)) && pages(call).next.Text? && pages(call).next.text !in tokens
    requires GoodItems(Items(pages, call + 1)) && |SizesOf(Items(pages, call + 1))| <= MAX_FILES
    ensures Continues(pages, call + 1) && Seen(pages, call + 1, tokens + {pages(call).next.text})
  {
    hide GoodItem, Fold, Items, SizesOf, GoodItems;
    forall t | t in tokens + {pages(call).next.text} ensures exists i :: 0 <= i < call + 1 && pages(i).next == Text(t) {
      if t in tokens {
        var i :| 0 <= i < call && pages(i).next == Text(t);
      } else {
        assert pages(call).next == Text(t);
      }
    }
  }

  lemma StillReading(pages: nat -> Page, patience: nat)
    requires Continues(pages, patience)
    ensures Answers(pages, patience, Interrupted) && NoListing(pages, patience)
  {
    hide GoodItem, Fold, Items, SizesOf, GoodItems;
  }

  predicate Folded(names: set<string>, items: seq<Item>) {
    (forall s :: s in names ==> exists k :: 0 <= k < |items| && s == ItemFold(items[k]))
    && (forall k :: 0 <= k < |items| ==> ItemFold(items[k]) in names)
  }

  predicate GoodSizes(items: seq<Item>, sizes: map<string, nat>) {
    GoodItems(items) && sizes == SizesOf(items)
  }

  lemma NothingYet(pages: nat -> Page)
    ensures Items(pages, 0) == [] && GoodSizes([], map[]) && Folded({}, [])
    ensures Continues(pages, 0) && Seen(pages, 0, {})
  {
  }

  lemma NoSizes(items: seq<Item>)
    ensures SizesOf(items) == map[] ==> items == []
  {
    if items != [] { assert NameOf(items[|items| - 1]) in SizesOf(items); }
  }

  lemma NextItems(pages: nat -> Page, n: nat)
    requires GoodPage(pages(n))
    ensures Items(pages, n + 1) == Items(pages, n) + pages(n).files.value
  {
  }

  /** The inner loop over one page's files. */
  method ReadItems(files: seq<Item>, ghost before: seq<Item>, sizes0: map<string, nat>, names0: set<string>)
    returns (refused: bool, sizes: map<string, nat>, names: set<string>)
    requires GoodSizes(before, sizes0) && Folded(names0, before)
    ensures refused <==> !GoodItems(before + files)
    ensures !refused ==> GoodSizes(before + files, sizes) && Folded(names, before + files)
  {
    hide GoodItem, Fold, GoodItems, Folded, GoodSizes, SizesOf;
    sizes, names, refused := sizes0, names0, false;
    assert before + files[..0] == before;
    for i := 0 to |files|
      invariant GoodSizes(before + files[..i], sizes) && Folded(names, before + files[..i])
    {
      var item := files[i];
      assert before + files[..i + 1] == before + files[..i] + [item];
      if !GoodItem(item) || ItemFold(item) in names {
        SpoiledBy(before + files[..i], item, names, sizes);
        assert before + files[..i + 1] <= before + files;
        SpoiledLonger(before + files[..i + 1], before + files);
        return true, sizes, names;
      }
      FreshItem(before + files[..i], item, names, sizes);
      names := names + {ItemFold(item)};
      sizes := sizes[NameOf(item) := SizeOf(item)];
    }
    assert files[..|files|] == files;
    assert GoodItems(before + files) by { SizesAreGood(before + files, sizes); }
  }

  lemma SizesAreGood(items: seq<Item>, sizes: map<string, nat>)
    requires GoodSizes(items, sizes)
    ensures GoodItems(items)
  {
    hide GoodItems;
  }

  lemma SpoiledLonger(prefix: seq<Item>, items: seq<Item>)
    requires prefix <= items && !GoodItems(prefix)
    ensures !GoodItems(items)
  {
    if GoodItems(items) { GoodPrefix(items, prefix); }
  }

  lemma SizesNext(items: seq<Item>, item: Item)
    ensures SizesOf(items + [item]) == SizesOf(items)[NameOf(item) := SizeOf(item)]
  {
    assert (items + [item])[..|items|] == items;
  }

  lemma SpoiledBy(items: seq<Item>, item: Item, names: set<string>, sizes: map<string, nat>)
    requires GoodSizes(items, sizes) && Folded(names, items) && (!GoodItem(item) || ItemFold(item) in names)
    ensures !GoodItems(items + [item])
  {
    hide GoodItem, Fold, SizesOf;
    var now := items + [item];
    assert now[|items|] == item;
    if GoodItem(item) {
      var k :| 0 <= k < |items| && ItemFold(item) == ItemFold(items[k]);
      assert now[k] == items[k];
    }
  }

  lemma FreshItem(items: seq<Item>, item: Item, names: set<string>, sizes: map<string, nat>)
    requires GoodSizes(items, sizes) && Folded(names, items) && GoodItem(item) && ItemFold(item) !in names
    ensures GoodSizes(items + [item], sizes[NameOf(item) := SizeOf(item)]) && Folded(names + {ItemFold(item)}, items + [item])
  {
    hide GoodItem, Fold, SizesOf, ItemFold;
    var now := items + [item];
    SizesNext(items, item);
    forall s | s in names + {ItemFold(item)} ensures exists k :: 0 <= k < |now| && s == ItemFold(now[k]) {
      if s in names {
        var k :| 0 <= k < |items| && s == ItemFold(items[k]);
        assert now[k] == items[k];
      } else {
        assert now[|items|] == item;
      }
    }
  }

  lemma {:induction false} ItemsPrefix(pages: nat -> Page, n: nat, m: nat)
    requires n <= m && forall i :: 0 <= i < m ==> GoodPage(pages(i))
    ensures Items(pages, n) <= Items(pages, m)
    decreases m
  {
    if n < m { ItemsPrefix(pages, n, m - 1); }
  }

  lemma {:induction false} SizesGrow(items: seq<Item>, n: nat)
    requires n <= |items|
    ensures SizesOf(items[..n]).Keys <= SizesOf(items).Keys
    decreases |items|
  {
    if n < |items| {
      assert items[..|items| - 1][..n] == items[..n];
      SizesGrow(items[..|items| - 1], n);
    } else {
      assert items[..n] == items;
    }
  }

  lemma NeverComplete(pages: nat -> Page, call: nat, patience: nat)
    requires forall i :: 0 <= i < call ==> GoodPage(pages(i)) && pages(i).next.Text? && pages(i).next.text != ""
    requires GoodPage(pages(call)) && !GoodItems(Items(pages, call + 1))
    ensures forall n: nat, m :: n <= patience ==> !Complete(pages, n, m)
  {
    hide GoodItem, Items, SizesOf, Fold;
    forall n: nat, m | n <= patience && Complete(pages, n, m) ensures false {
      assert n > call;
      ItemsPrefix(pages, call + 1, n);
      GoodPrefix(Items(pages, n), Items(pages, call + 1));
    }
  }

  lemma GoodPrefix(items: seq<Item>, prefix: seq<Item>)
    requires GoodItems(items) && prefix <= items
    ensures GoodItems(prefix)
  {
    hide GoodItem, Fold;
    assert forall i :: 0 <= i < |prefix| ==> prefix[i] == items[i];
  }

  lemma TooMany(pages: nat -> Page, call: nat, patience: nat, sizes: map<string, nat>)
    requires forall i :: 0 <= i < call ==> GoodPage(pages(i)) && pages(i).next.Text? && pages(i).next.text != ""
    requires GoodPage(pages(call)) && GoodSizes(Items(pages, call + 1), sizes) && |sizes| > MAX_FILES
    ensures forall n: nat, m :: n <= patience ==> !Complete(pages, n, m)
  {
    hide GoodItem, Items, SizesOf, Fold;
    forall n: nat, m | n <= patience && Complete(pages, n, m) ensures false {
      assert n > call;
      ItemsPrefix(pages, call + 1, n);
      assert Items(pages, n)[..|Items(pages, call + 1)|] == Items(pages, call + 1);
      SizesGrow(Items(pages, n), |Items(pages, call + 1)|);
      FewerKeys(sizes, m);
    }
  }

  lemma FewerKeys(a: map<string, nat>, b: map<string, nat>)
    requires a.Keys <= b.Keys
    ensures |a| <= |b|
  {
    assert |a.Keys| <= |b.Keys| by { SubsetSize(a.Keys, b.Keys); }
    assert |a| == |a.Keys| && |b| == |b.Keys|;
  }

  /** No other number of pages is complete once a page has no next token. */
  lemma LastPage(pages: nat -> Page, call: nat, sizes: map<string, nat>)
    requires forall i :: 0 <= i < call ==> GoodPage(pages(i)) && pages(i).next.Text? && pages(i).next.text != ""
    requires GoodPage(pages(call)) && Last(pages(call)) && GoodSizes(Items(pages, call + 1), sizes)
    ensures forall n: nat, m :: Complete(pages, n, m) ==> n == call + 1 && m == sizes && m != map[]
  {
    hide GoodItem, Items, SizesOf, GoodItems;
    forall n: nat, m | Complete(pages, n, m) ensures n == call + 1 && m == sizes && m != map[] {
      assert n > call + 1 ==> pages(call).next.Text?;
    }
  }

  /** Which pages make up a listing, item by item: at least one file and at most 100000, every name safe and no two alike
      up to case, every size known, every page but the last followed by a new token. */
  lemma ListingExactly(pages: nat -> Page, n: nat)
    ensures (exists sizes :: Complete(pages, n, sizes)) <==>
              && n > 0 && (forall i :: 0 <= i < n ==> !pages(i).error && pages(i).files.Some?)
              && (forall i :: 0 <= i < n - 1 ==> pages(i).next.Text? && pages(i).next.text != "")
              && (forall i, k :: 0 <= i < k < n - 1 ==> pages(i).next.text != pages(k).next.text)
              && (pages(n - 1).next.NoToken? || pages(n - 1).next == Text(""))
              && 0 < |Items(pages, n)| <= 100000
              && (forall k :: 0 <= k < |Items(pages, n)| ==>
                    var item := Items(pages, n)[k]; item.name.Some? && item.size.Some? && SafeName(item.name.value) && item.size.value >= 0)
              && (forall i, k :: 0 <= i < k < |Items(pages, n)| ==> Fold(Items(pages, n)[i].name.value) != Fold(Items(pages, n)[k].name.value))
  {
    hide SafeName, Fold, Items, SizesOf;
    if n > 0 && GoodItems(Items(pages, n)) {
      SizesCount(Items(pages, n));
      assert Complete(pages, n, SizesOf(Items(pages, n))) <==> (exists sizes :: Complete(pages, n, sizes));
    }
  }

  lemma SizesCount(items: seq<Item>)
    requires GoodItems(items)
    ensures |SizesOf(items)| == |items|
    ensures forall name :: name in SizesOf(items) <==> exists i :: 0 <= i < |items| && items[i].name == Some(name)
    ensures forall i :: 0 <= i < |items| ==> SizesOf(items)[items[i].name.value] == items[i].size.value
  {
    hide GoodItems, SizesOf;
    SizeCount(items);
    ItemsAre(items);
    forall name ensures name in SizesOf(items) <==> exists i :: 0 <= i < |items| && items[i].name == Some(name) { SizeNames(items, name); }
    forall i | 0 <= i < |items| ensures SizesOf(items)[items[i].name.value] == items[i].size.value { SizeAt(items, i); }
  }

  lemma {:induction false} SizeNames(items: seq<Item>, name: string)
    requires GoodItems(items)
    ensures name in SizesOf(items) <==> exists i :: 0 <= i < |items| && items[i].name == Some(name)
  {
    hide GoodItems, GoodItem, NameOf, SizeOf;
    if items != [] {
      var n := |items| - 1;
      var init := items[..n];
      GoodPrefix(items, init);
      ItemsAre(items);
      SizeNames(init, name);
      if i :| 0 <= i < n && items[i].name == Some(name) { assert init[i].name == Some(name); }
    }
  }

  lemma {:induction false} SizeCount(items: seq<Item>)
    requires GoodItems(items)
    ensures |SizesOf(items)| == |items|
  {
    hide GoodItems, GoodItem, NameOf, SizeOf;
    if items != [] {
      var n := |items| - 1;
      var m, last, size := SizesOf(items[..n]), NameOf(items[n]), SizeOf(items[n]);
      GoodPrefix(items, items[..n]);
      ItemsAre(items);
      SizeCount(items[..n]);
      SizeNames(items[..n], last);
      FreshName(items);
      OneMoreSize(m, last, size);
    }
  }

  lemma OneMoreSize(m: map<string, nat>, k: string, v: nat)
    requires k !in m
    ensures |m[k := v]| == |m| + 1
  {
    assert m[k := v].Keys == m.Keys + {k};
    assert |m| == |m.Keys| && |m[k := v]| == |m[k := v].Keys|;
  }

  lemma {:induction false} SizeAt(items: seq<Item>, i: nat)
    requires GoodItems(items) && i < |items|
    ensures NameOf(items[i]) in SizesOf(items) && SizesOf(items)[NameOf(items[i])] == SizeOf(items[i])
  {
    hide GoodItems, GoodItem, NameOf, SizeOf;
    var n := |items| - 1;
    if i < n {
      GoodPrefix(items, items[..n]);
      ItemsAre(items);
      FreshName(items);
      SizeAt(items[..n], i);
    }
  }

  lemma ItemsAre(items: seq<Item>)
    requires GoodItems(items)
    ensures forall i :: 0 <= i < |items| ==>
              items[i].name == Some(NameOf(items[i])) && items[i].size.Some? && items[i].size.value == SizeOf(items[i])
  {
    hide SafeName, Fold;
    assert forall i :: 0 <= i < |items| ==> GoodItem(items[i]);
  }

  lemma FreshName(items: seq<Item>)
    requires GoodItems(items) && items != []
    ensures forall i :: 0 <= i < |items| - 1 ==> items[i].name != items[|items| - 1].name
  {
    hide SafeName, Fold;
    forall i | 0 <= i < |items| - 1 ensures items[i].name != items[|items| - 1].name {
      assert ItemFold(items[i]) != ItemFold(items[|items| - 1]);
    }
  }

  /** The listed sizes are those on the pages. */
  lemma ListingMeans(pages: nat -> Page, n: nat, sizes: map<string, nat>, name: string, size: nat)
    requires Complete(pages, n, sizes)
    ensures name in sizes && sizes[name] == size <==>
              exists i :: 0 <= i < n && pages(i).files.Some? && Item(Some(name), Some(size)) in pages(i).files.value
  {
    hide SafeName, Fold, SizesOf, Items;
    var items, item := Items(pages, n), Item(Some(name), Some(size));
    SizesCount(items);
    ItemsMeans(pages, n, item);
    if name in sizes && sizes[name] == size {
      var i :| 0 <= i < |items| && items[i].name == Some(name);
      assert items[i] == item;
    }
    if item in items {
      var i :| 0 <= i < |items| && items[i] == item;
      assert items[i].name == Some(name);
    }
  }

  lemma {:induction false} ItemsMeans(pages: nat -> Page, n: nat, item: Item)
    ensures item in Items(pages, n) <==> exists i :: 0 <= i < n && pages(i).files.Some? && item in pages(i).files.value
  {
    if n > 0 { ItemsMeans(pages, n - 1, item); }
  }

  // ---- reading one file ----

  /** A response body: its blocks and the bytes they make up. */
  datatype Download = Failed | Stream(blocks: seq<nat>, content: File)

  function Total(blocks: seq<nat>): nat {
    if blocks == [] then 0 else Total(blocks[..|blocks| - 1]) + blocks[|blocks| - 1]
  }

  predicate Whole(d: Download) {
    d.Stream? ==> Total(d.blocks) == d.content.size
  }

  lemma {:induction false} TotalGrows(blocks: seq<nat>, n: nat)
    requires n <= |blocks|
    ensures Total(blocks[..n]) <= Total(blocks)
    decreases |blocks|
  {
    if n < |blocks| {
      assert blocks[..|blocks| - 1][..n] == blocks[..n];
      TotalGrows(blocks[..|blocks| - 1], n);
    } else {
      assert blocks[..n] == blocks;
    }
  }

  /** Reads the whole body and stops as soon as it is too long. */
  method ReadFile(d: Download, e: Entry) returns (ok: bool)
    requires Whole(d)
    ensures ok <==> d.Stream? && d.content.size == e.size && d.content == e.digest
  {
    if d.Failed? {
      return false;
    }
    var received := 0;
    for i := 0 to |d.blocks|
      invariant received == Total(d.blocks[..i])
    {
      received := received + d.blocks[i];
      assert d.blocks[..i + 1][..i] == d.blocks[..i];
      if received > e.size {
        TotalGrows(d.blocks, i + 1);
        return false;
      }
    }
    assert d.blocks[..|d.blocks|] == d.blocks;
    ok := received == e.size && d.content == e.digest;
  }

  // ---- one batch ----

  datatype Outcome = Verified | NotReady | Rejected | Deferred | Stopped

  /** What the environment does during one call: both listings, the file bodies, the interruption check before
      each file, and whether the batch's time is used up there; `sorted` lists a set of names in order. */
  datatype World = World(
    first: nat -> Page, last: nat -> Page, patience: nat, serve: string -> Download,
    stop: string -> bool, late: string -> bool, sorted: set<string> -> seq<string>)

  ghost predicate Enumerates(order: seq<string>, names: set<string>) {
    && (forall i :: 0 <= i < |order| ==> order[i] in names)
    && (forall n :: n in names ==> n in order)
    && (forall i, k :: 0 <= i < k < |order| ==> order[i] != order[k])
  }

  ghost predicate Behaves(w: World) {
    && (forall n :: Whole(w.serve(n)))
    && (forall s :: Enumerates(w.sorted(s), s))
  }

  /** The file was fully read with the expected size and digest. */
  predicate Matches(w: World, n: string, e: Entry) {
    w.serve(n).Stream? && w.serve(n).content.size == e.size && w.serve(n).content == e.digest
  }

  /** One batch: the verified files only grow, by files that this call fully read and found to match. */
  ghost predicate Batch(w: World, expected: Inventory, before: Inventory, after: Inventory) {
    && Within(after, expected)
    && (forall n :: n in before ==> n in after && after[n] == before[n])
    && (forall n :: n in after && n !in before ==> Matches(w, n, after[n]))
  }

  /** Nothing but the batch limit ends the call early. */
  ghost predicate Undisturbed(w: World, expected: Inventory) {
    forall n :: n in expected ==> Matches(w, n, expected[n]) && !w.stop(n) && !w.late(n)
  }

  /** The loop over the expected files in order, skipping verified ones. */
  method VerifyFiles(w: World, store: Store, scope: Scope, expected: Inventory, verified0: Inventory, background: bool)
    returns (r: Outcome, verified: Inventory)
    requires Behaves(w) && scope in store.candidates && Sound(store.candidates[scope])
    requires store.candidates[scope].expected == expected && store.candidates[scope].verified == verified0
    modifies store`candidates
    ensures scope in store.candidates && Sound(store.candidates[scope])
    ensures store.candidates == old(store.candidates)[scope := store.candidates[scope]]
    ensures store.candidates[scope].expected == expected && store.candidates[scope].verified == verified
    ensures store.candidates[scope].binding == old(store.candidates[scope].binding)
    ensures Batch(w, expected, verified0, verified)
    ensures r == Verified ==> verified == expected
    ensures r != NotReady
    ensures r == Rejected ==> exists n :: n in expected && n !in verified && !Matches(w, n, expected[n])
    ensures r == Stopped ==> exists n :: n in expected && w.stop(n)
    ensures r == Deferred ==> background && (|verified| == |verified0| + 64 || exists n :: n in expected && n !in verified && w.late(n))
    ensures background ==> |verified| <= |verified0| + BATCH
    ensures Undisturbed(w, expected) && background ==>
              && (|expected| - |verified0| <= BATCH ==> r == Verified)
              && (|expected| - |verified0| > BATCH ==> r == Deferred && |verified| == |verified0| + BATCH)
    ensures Undisturbed(w, expected) && !background ==> r == Verified
  {
    hide Sound, Behaves, Batch, Undisturbed, Within, Enumerates;
    assert Within(verified0, expected) by { SoundWithin(store.candidates[scope]); }
    var order := w.sorted(expected.Keys);
    assert Enumerates(order, expected.Keys) by { SortsNames(w, expected.Keys); }
    verified := verified0;
    var checked := 0;
    BatchStarts(w, expected, verified);
    for i := 0 to |order|
      invariant Held(store.candidates, scope, expected, verified)
      invariant store.candidates == old(store.candidates)[scope := store.candidates[scope]]
      invariant store.candidates[scope].binding == old(store.candidates[scope].binding)
      invariant Batch(w, expected, verified0, verified)
      invariant forall k :: 0 <= k < i ==> order[k] in verified
      invariant |verified| == |verified0| + checked && (background ==> checked <= BATCH)
    {
      var name := order[i];
      assert name in expected && (Undisturbed(w, expected) ==> Matches(w, name, expected[name]) && !w.stop(name) && !w.late(name)) by {
        NameExpected(w, order, expected, i);
      }
      if w.stop(name) {
        return Stopped, verified;
      }
      if name in verified {
        continue;
      }
      if background && (checked >= BATCH || w.late(name)) {
        BatchMissing(w, verified0, verified, expected, name);
        return Deferred, verified;
      }
      assert Whole(w.serve(name)) by { ServesWhole(w, name); }
      var ok := ReadFile(w.serve(name), expected[name]);
      if !ok {
        return Rejected, verified;
      }
      var marked := store.MarkFile(scope, name, expected[name]);
      BatchGrows(w, expected, verified0, verified, name);
      verified := verified[name := expected[name]];
      checked := checked + 1;
    }
    AllVerified(w, order, expected, verified0, verified);
    return Verified, verified;
  }

  /** The checkpoint row of the scope and the verified files it holds. */
  ghost predicate Held(candidates: map<Scope, Checkpoint>, scope: Scope, expected: Inventory, verified: Inventory) {
    && scope in candidates && Sound(candidates[scope])
    && candidates[scope].expected == expected && candidates[scope].verified == verified
  }

  lemma SortsNames(w: World, names: set<string>)
    requires Behaves(w)
    ensures Enumerates(w.sorted(names), names)
  {
    hide Enumerates, Whole;
  }

  lemma ServesWhole(w: World, name: string)
    requires Behaves(w)
    ensures Whole(w.serve(name))
  {
    hide Enumerates, Whole;
  }

  lemma BatchStarts(w: World, expected: Inventory, verified: Inventory)
    requires Within(verified, expected)
    ensures Batch(w, expected, verified, verified)
  {
  }

  lemma NameExpected(w: World, order: seq<string>, expected: Inventory, i: nat)
    requires Enumerates(order, expected.Keys) && i < |order|
    ensures order[i] in expected
    ensures Undisturbed(w, expected) ==> Matches(w, order[i], expected[order[i]]) && !w.stop(order[i]) && !w.late(order[i])
  {
  }

  lemma BatchMissing(w: World, before: Inventory, m: Inventory, expected: Inventory, name: string)
    requires Batch(w, expected, before, m) && name in expected && name !in m
    ensures |m| < |expected|
  {
    Missing(m, expected, name);
  }

  lemma BatchGrows(w: World, expected: Inventory, before: Inventory, m: Inventory, name: string)
    requires Batch(w, expected, before, m) && name in expected && name !in m && Matches(w, name, expected[name])
    ensures Batch(w, expected, before, m[name := expected[name]])
    ensures |m[name := expected[name]]| == |m| + 1 <= |expected|
  {
    Missing(m, expected, name);
    OneMore(m, name, expected[name]);
    BatchExtends(w, expected, before, m, name);
  }

  lemma OneMore(m: Inventory, name: string, e: Entry)
    requires name !in m
    ensures |m[name := e]| == |m| + 1
  {
    assert m[name := e].Keys == m.Keys + {name};
    assert |m| == |m.Keys| && |m[name := e]| == |m[name := e].Keys|;
  }

  lemma BatchExtends(w: World, expected: Inventory, before: Inventory, m: Inventory, name: string)
    requires Batch(w, expected, before, m) && name in expected && name !in m && Matches(w, name, expected[name])
    ensures Batch(w, expected, before, m[name := expected[name]])
  {
    hide Matches;
  }

  lemma AllVerified(w: World, order: seq<string>, expected: Inventory, before: Inventory, m: Inventory)
    requires Enumerates(order, expected.Keys) && Batch(w, expected, before, m) && forall k :: 0 <= k < |order| ==> order[k] in m
    ensures m == expected
  {
    assert forall n :: n in expected ==> n in m;
    assert m.Keys == expected.Keys;
  }

  lemma SoundWithin(row: Checkpoint)
    requires Sound(row)
    ensures Within(row.verified, row.expected)
  {
  }

  lemma Missing(m: Inventory, expected: Inventory, name: string)
    requires Within(m, expected) && name in expected && name !in m
    ensures |m| < |expected|
  {
    SubsetSize(m.Keys, expected.Keys - {name});
    assert |m| == |m.Keys| && |expected| == |expected.Keys|;
  }

  /** The version is listed with this inventory, before and after, and every file that is read matches. */
  ghost predicate Smooth(w: World, upload: PayloadContract.Upload, binding: Binding, expected: Inventory) {
    && binding.version > 0 && PayloadContract.UploadInventory(upload, expected.Keys) == Some(expected)
    && (exists n: nat :: n <= w.patience && Complete(w.first, n, Sizes(expected)))
    && (exists n: nat :: n <= w.patience && Complete(w.last, n, Sizes(expected)))
    && Undisturbed(w, expected)
  }

  /** There is no checkpoint for the candidate yet, or one of this binding and inventory. */
  ghost predicate Resumable(candidates: map<Scope, Checkpoint>, binding: Binding, expected: Inventory) {
    var scope := Scope(binding.datasetRef, binding.dir);
    scope in candidates ==> candidates[scope].binding == binding && candidates[scope].expected == expected && Sound(candidates[scope])
  }

  /** A listing is empty, differs from the expected names and sizes, or changed between the two readings. */
  ghost predicate Unpublished(w: World, upload: PayloadContract.Upload) {
    || Answers(w.first, w.patience, Empty) || Answers(w.last, w.patience, Empty)
    || (exists sizes, expected :: Answers(w.first, w.patience, Listed(sizes))
          && PayloadContract.UploadInventory(upload, sizes.Keys) == Some(expected) && sizes != Sizes(expected))
    || (exists sizes, others :: Answers(w.first, w.patience, Listed(sizes)) && Answers(w.last, w.patience, Listed(others)) && sizes != others)
  }

  /** A listing is malformed, or the listed version is refused: for the upload itself, for a checkpoint of another binding
      or inventory or an unsound one, or for a file that does not match. */
  ghost predicate Refuses(w: World, upload: PayloadContract.Upload, candidates: map<Scope, Checkpoint>, binding: Binding) {
    || Answers(w.first, w.patience, Refused) || Answers(w.last, w.patience, Refused)
    || (exists sizes :: Answers(w.first, w.patience, Listed(sizes)) && PayloadContract.UploadInventory(upload, sizes.Keys) == None)
    || (exists sizes, expected :: Answers(w.first, w.patience, Listed(sizes)) && PayloadContract.UploadInventory(upload, sizes.Keys) == Some(expected)
          && sizes == Sizes(expected) && (!Resumable(candidates, binding, expected) || exists n :: n in expected && !Matches(w, n, expected[n])))
  }

  function VerifiedIn(candidates: map<Scope, Checkpoint>, scope: Scope): Inventory {
    if scope in candidates then candidates[scope].verified else map[]
  }

  /** Only the candidate's own checkpoint changed: it keeps its binding and inventory and gains files that were read. */
  ghost predicate Advances(w: World, binding: Binding, before: map<Scope, Checkpoint>, after: map<Scope, Checkpoint>) {
    var scope := Scope(binding.datasetRef, binding.dir);
    && scope in after && Sound(after[scope]) && after == before[scope := after[scope]] && after[scope].binding == binding
    && (scope in before ==> before[scope].binding == binding && before[scope].expected == after[scope].expected)
    && Batch(w, after[scope].expected, VerifiedIn(before, scope), after[scope].verified)
  }

  /** A background call that nothing but the batch limit ends: it verifies what is left, or a full batch. */
  ghost predicate BatchDone(before: map<Scope, Checkpoint>, after: map<Scope, Checkpoint>, binding: Binding, expected: Inventory, r: Outcome) {
    var scope := Scope(binding.datasetRef, binding.dir);
    var left := |expected| - |VerifiedIn(before, scope)|;
    && scope in after && Resumable(after, binding, expected)
    && (left <= BATCH ==> r == Verified)
    && (left > BATCH ==> r == Deferred && |after[scope].verified| == |VerifiedIn(before, scope)| + BATCH)
  }

  /** The whole call.  Acceptance means: the version's listing was complete before and after with the same sizes,
      the expected layout has exactly these names and sizes, and every expected file has been fully read, in this
      call or an earlier one recorded under the same binding.  A listing that does not yet show the expected sizes is
      reported as not ready, and only a malformed or mismatching version is rejected.  On a version that keeps a
      `promised` inventory a background call verifies what is left of it, or a full batch. */
  method VerifyVersionFiles(w: World, upload: PayloadContract.Upload, store: Store, binding: Binding, background: bool, ghost promised: Inventory)
    returns (r: Outcome)
    requires Behaves(w)
    modifies store`candidates
    ensures var scope := Scope(binding.datasetRef, binding.dir);
      r == Verified ==>
        && binding.version > 0
        && scope in store.candidates && Sound(store.candidates[scope]) && store.candidates[scope].binding == binding
        && store.candidates[scope].verified == store.candidates[scope].expected
        && exists sizes, n: nat, m: nat :: Complete(w.first, n, sizes) && Complete(w.last, m, sizes)
             && PayloadContract.UploadInventory(upload, sizes.Keys) == Some(store.candidates[scope].expected)
             && sizes == Sizes(store.candidates[scope].expected)
    ensures store.candidates == old(store.candidates) || Advances(w, binding, old(store.candidates), store.candidates)
    ensures r == NotReady ==> Unpublished(w, upload)
    ensures r == Rejected ==> binding.version == 0 || Refuses(w, upload, old(store.candidates), binding)
    ensures r == Deferred ==> background
    ensures r == Stopped ==> Answers(w.first, w.patience, Interrupted) || Answers(w.last, w.patience, Interrupted) || exists n :: w.stop(n)
    ensures Smooth(w, upload, binding, promised) && background && Resumable(old(store.candidates), binding, promised) ==>
              BatchDone(old(store.candidates), store.candidates, binding, promised, r)
  {
    hide Complete, Continues, Answers, Unpublished, Refuses, Matches, Behaves, Batch, Sound, Sizes, Undisturbed, PayloadContract.UploadInventory;
    hide Advances, BatchDone, Resumable;
    if binding.version == 0 {
      return Rejected;
    }
    var listing := VersionFileInventory(w.first, w.patience);
    if Smooth(w, upload, binding, promised) { SmoothListing(w, upload, binding, promised); }
    ListingDecides(w, upload, store.candidates, binding);
    match listing {
      case Empty => return NotReady;
      case Refused => return Rejected;
      case Interrupted => return Stopped;
      case Listed(_) =>
    }
    var actual := listing.sizes;
    r := VerifyListed(w, upload, store, binding, background, actual);
    if r != Verified {
      return r;
    }
    var again := VersionFileInventory(w.last, w.patience);
    match again {
      case Empty => return NotReady;
      case Refused => return Rejected;
      case Interrupted => return Stopped;
      case Listed(sizes) =>
        if sizes != actual {
          return NotReady;
        }
        ListedPages(w.first, w.patience, actual);
        ListedPages(w.last, w.patience, actual);
    }
  }

  /** The part between the two listings. */
  method VerifyListed(w: World, upload: PayloadContract.Upload, store: Store, binding: Binding, background: bool, actual: map<string, nat>)
    returns (r: Outcome)
    requires Behaves(w) && binding.version > 0 && Answers(w.first, w.patience, Listed(actual))
    modifies store`candidates
    ensures var scope, layout := Scope(binding.datasetRef, binding.dir), PayloadContract.UploadInventory(upload, actual.Keys);
      r == Verified ==>
        && scope in store.candidates && Sound(store.candidates[scope]) && store.candidates[scope].binding == binding
        && layout == Some(store.candidates[scope].expected) && actual == Sizes(store.candidates[scope].expected)
        && store.candidates[scope].verified == store.candidates[scope].expected
    ensures store.candidates == old(store.candidates) || Advances(w, binding, old(store.candidates), store.candidates)
    ensures r == NotReady ==> Unpublished(w, upload)
    ensures r == Rejected ==> Refuses(w, upload, old(store.candidates), binding)
    ensures r == Deferred ==> background
    ensures r == Stopped ==> exists n :: w.stop(n)
    ensures var layout := PayloadContract.UploadInventory(upload, actual.Keys);
      layout.Some? && actual == Sizes(layout.value) && Undisturbed(w, layout.value) && background && Resumable(old(store.candidates), binding, layout.value) ==>
        BatchDone(old(store.candidates), store.candidates, binding, layout.value, r)
  {
    hide Complete, Continues, Answers, Unpublished, Refuses, Matches, Behaves, Batch, Sound, Sizes, Undisturbed, PayloadContract.UploadInventory;
    UploadDecides(w, upload, store.candidates, binding, actual);
    var layout := PayloadContract.UploadContentInventory(upload, actual.Keys);
    if layout.None? {
      return Rejected;
    }
    var expected := layout.value;
    if actual != Sizes(expected) {
      return NotReady;
    }
    var scope := Scope(binding.datasetRef, binding.dir);
    var loaded := store.Load(binding, expected);
    if !loaded.Loaded? {
      return Rejected;
    }
    var verified: Inventory;
    r, verified := VerifyFiles(w, store, scope, expected, loaded.verified, background);
  }

  lemma ListedPages(pages: nat -> Page, patience: nat, sizes: map<string, nat>)
    requires Answers(pages, patience, Listed(sizes))
    ensures exists n: nat :: Complete(pages, n, sizes)
  {
    hide Complete;
  }

  lemma ListingDecides(w: World, upload: PayloadContract.Upload, candidates: map<Scope, Checkpoint>, binding: Binding)
    ensures Answers(w.first, w.patience, Empty) || Answers(w.last, w.patience, Empty) ==> Unpublished(w, upload)
    ensures Answers(w.first, w.patience, Refused) || Answers(w.last, w.patience, Refused) ==> Refuses(w, upload, candidates, binding)
    ensures forall sizes, others :: Answers(w.first, w.patience, Listed(sizes)) && Answers(w.last, w.patience, Listed(others)) && sizes != others ==>
              Unpublished(w, upload)
  {
    hide Answers, Matches, Resumable, PayloadContract.UploadInventory;
  }

  lemma UploadDecides(w: World, upload: PayloadContract.Upload, candidates: map<Scope, Checkpoint>, binding: Binding, sizes: map<string, nat>)
    requires Answers(w.first, w.patience, Listed(sizes))
    ensures var layout := PayloadContract.UploadInventory(upload, sizes.Keys);
      && (layout.None? ==> Refuses(w, upload, candidates, binding))
      && (layout.Some? && sizes != Sizes(layout.value) ==> Unpublished(w, upload))
      && (layout.Some? && sizes == Sizes(layout.value) ==>
            !Resumable(candidates, binding, layout.value) || (exists n :: n in layout.value && !Matches(w, n, layout.value[n])) ==> Refuses(w, upload, candidates, binding))
  {
    hide Answers, Matches, Resumable, PayloadContract.UploadInventory;
  }

  function Sizes(expected: Inventory): map<string, nat> {
    map n | n in expected :: expected[n].size
  }

  lemma SizesKeys(expected: Inventory)
    ensures Sizes(expected).Keys == expected.Keys
  {
  }

  /** What the listing of such a version must be. */
  lemma SmoothListing(w: World, upload: PayloadContract.Upload, binding: Binding, expected: Inventory)
    requires Smooth(w, upload, binding, expected)
    ensures Sizes(expected).Keys == expected.Keys
    ensures exists n: nat :: n <= w.patience && Complete(w.first, n, Sizes(expected))
    ensures exists n: nat :: n <= w.patience && Complete(w.last, n, Sizes(expected))
  {
    hide Complete, Undisturbed, PayloadContract.UploadInventory;
    SizesKeys(expected);
  }

  // ---- any sequence of batches ----

  /** Successive calls for one candidate, interrupted anywhere: vs[i] is the checkpoint before call i. */
  ghost predicate Batches(ws: seq<World>, expected: Inventory, vs: seq<Inventory>) {
    && |vs| == |ws| + 1 && vs[0] == map[]
    && forall i :: 0 <= i < |ws| ==> Batch(ws[i], expected, vs[i], vs[i + 1])
  }

  /** When a candidate is accepted, every one of its files was fully read with its expected size and digest in
      some call, however many interrupted calls it took. */
  lemma {:induction false} AcceptedFilesWereRead(ws: seq<World>, expected: Inventory, vs: seq<Inventory>, i: nat, n: string)
    requires Batches(ws, expected, vs) && i < |vs| && n in vs[i]
    ensures n in expected && vs[i][n] == expected[n]
    ensures exists k :: 0 <= k < i && Matches(ws[k], n, expected[n])
  {
    assert i > 0;
    if n in vs[i - 1] {
      AcceptedFilesWereRead(ws, expected, vs, i - 1, n);
    } else {
      assert Batch(ws[i - 1], expected, vs[i - 1], vs[i]);
      assert Matches(ws[i - 1], n, expected[n]);
    }
  }

  function CallsNeeded(remaining: nat): nat {
    if remaining <= BATCH then 1 else 1 + CallsNeeded(remaining - BATCH)
  }

  /** That many calls are ceil(n / 64) for n remaining files. */
  lemma {:induction false} CeilingOfBatches(remaining: nat)
    requires remaining > 0
    ensures CallsNeeded(remaining) == (remaining + 63) / 64
  {
    if remaining > BATCH { CeilingOfBatches(remaining - BATCH); }
  }

  lemma StillNothing(ws: seq<World>, expected: Inventory, vs: seq<Inventory>)
    requires |vs| == |ws| + 1 && forall i :: 0 <= i < |vs| ==> vs[i] == map[]
    ensures Batches(ws, expected, vs)
  {
  }

  lemma NextBatch(ws: seq<World>, expected: Inventory, vs: seq<Inventory>, w: World, after: Inventory)
    requires Batches(ws, expected, vs) && Batch(w, expected, vs[|ws|], after)
    ensures Batches(ws + [w], expected, vs + [after])
  {
    hide Batch;
  }

  /** A call that changes nothing is a batch too. */
  lemma IdleBatch(w: World, row: Checkpoint)
    requires Sound(row)
    ensures Batch(w, row.expected, row.verified, row.verified)
  {
  }

  /** What the calls so far have recorded. */
  ghost predicate Recorded(candidates: map<Scope, Checkpoint>, binding: Binding, ws: seq<World>, vs: seq<Inventory>) {
    var scope := Scope(binding.datasetRef, binding.dir);
    && |vs| == |ws| + 1 && vs[|ws|] == VerifiedIn(candidates, scope)
    && if scope in candidates then
         candidates[scope].binding == binding && Sound(candidates[scope]) && Batches(ws, candidates[scope].expected, vs)
       else forall i :: 0 <= i < |vs| ==> vs[i] == map[]
  }

  lemma CallRecorded(before: map<Scope, Checkpoint>, after: map<Scope, Checkpoint>, binding: Binding, ws: seq<World>, vs: seq<Inventory>, w: World)
    requires Recorded(before, binding, ws, vs) && (after == before || Advances(w, binding, before, after))
    ensures Recorded(after, binding, ws + [w], vs + [VerifiedIn(after, Scope(binding.datasetRef, binding.dir))])
  {
    hide Batch, Sound;
    var scope := Scope(binding.datasetRef, binding.dir);
    if scope in after {
      if after == before { IdleBatch(w, after[scope]); }
      if scope !in before { StillNothing(ws, after[scope].expected, vs); }
      NextBatch(ws, after[scope].expected, vs, w, after[scope].verified);
    }
  }

  /** The recheck scheduler calls again until the version is accepted or rejected: one background call per world, all on
      one store.  Acceptance means that each expected file was fully read and matched in one of the calls made; and on
      a version that keeps the promised inventory, undisturbed calls accept it after exactly ceil(n / 64) of them. */
  method VerifyInBatches(ws: seq<World>, upload: PayloadContract.Upload, store: Store, binding: Binding, ghost promised: Inventory)
    returns (r: Outcome, calls: nat)
    requires forall i :: 0 <= i < |ws| ==> Behaves(ws[i])
    requires Scope(binding.datasetRef, binding.dir) !in store.candidates
    modifies store`candidates
    ensures calls <= |ws|
    ensures var scope := Scope(binding.datasetRef, binding.dir);
      r == Verified ==>
        && scope in store.candidates && store.candidates[scope].binding == binding
        && store.candidates[scope].verified == store.candidates[scope].expected
        && forall n :: n in store.candidates[scope].expected ==>
             exists k :: 0 <= k < calls && Matches(ws[k], n, store.candidates[scope].expected[n])
    ensures (forall i :: 0 <= i < |ws| ==> Smooth(ws[i], upload, binding, promised)) && |ws| >= CallsNeeded(|promised|) ==>
              r == Verified && calls == CallsNeeded(|promised|)
  {
    hide Behaves, Smooth, Recorded, Batch, Sound, Resumable, Matches, Complete, PayloadContract.UploadInventory;
    ghost var scope := Scope(binding.datasetRef, binding.dir);
    ghost var vs: seq<Inventory> := [map[]];
    ghost var smooth := forall i :: 0 <= i < |ws| ==> Smooth(ws[i], upload, binding, promised);
    StartsRecorded(store.candidates, binding);
    StartsResumable(store.candidates, binding, promised);
    r, calls := Deferred, 0;
    while calls < |ws|
      invariant calls <= |ws| && r != Verified
      invariant Recorded(store.candidates, binding, ws[..calls], vs)
      invariant smooth ==> Resumable(store.candidates, binding, promised) && |VerifiedIn(store.candidates, scope)| <= |promised|
      invariant smooth ==> CallsNeeded(|promised|) == calls + CallsNeeded(|promised| - |VerifiedIn(store.candidates, scope)|)
    {
      ghost var before := store.candidates;
      r := VerifyVersionFiles(ws[calls], upload, store, binding, true, promised);
      CallRecorded(before, store.candidates, binding, ws[..calls], vs, ws[calls]);
      assert ws[..calls + 1] == ws[..calls] + [ws[calls]];
      vs := vs + [VerifiedIn(store.candidates, scope)];
      calls := calls + 1;
      if r == Verified {
        EachWasRead(store.candidates, binding, ws[..calls], vs);
        return;
      }
      if r == Rejected {
        return;
      }
    }
  }

  lemma StartsRecorded(candidates: map<Scope, Checkpoint>, binding: Binding)
    requires Scope(binding.datasetRef, binding.dir) !in candidates
    ensures Recorded(candidates, binding, [], [map[]])
  {
  }

  lemma StartsResumable(candidates: map<Scope, Checkpoint>, binding: Binding, expected: Inventory)
    requires Scope(binding.datasetRef, binding.dir) !in candidates
    ensures Resumable(candidates, binding, expected)
  {
  }

  lemma EachWasRead(candidates: map<Scope, Checkpoint>, binding: Binding, ws: seq<World>, vs: seq<Inventory>)
    requires var scope := Scope(binding.datasetRef, binding.dir);
      scope in candidates && candidates[scope].verified == candidates[scope].expected && Recorded(candidates, binding, ws, vs)
    ensures var scope := Scope(binding.datasetRef, binding.dir);
      forall n :: n in candidates[scope].expected ==> exists k :: 0 <= k < |ws| && Matches(ws[k], n, candidates[scope].expected[n])
  {
    hide Batches, Matches;
    var expected := candidates[Scope(binding.datasetRef, binding.dir)].expected;
    forall n | n in expected ensures exists k :: 0 <= k < |ws| && Matches(ws[k], n, expected[n]) {
      AcceptedFilesWereRead(ws, expected, vs, |ws|, n);
    }
  }
}
