/** Uploading an archive in chunks: any order, duplicates, conflicts and concurrent streams, then assembly. */
module ChunkUpload {
  import opened Basics
  import opened Options

  type Byte = bv8
  type Bytes = seq<Byte>     // bytes stand for their own SHA-256, which is taken to be injective

  datatype Kind = Dataset | Kernel

  /** max(1, ceil(total / chunk)) */
  function ChunkCount(total: nat, chunk: nat): (n: nat)
    requires chunk > 0
    ensures n >= 1 && n * chunk >= total && (n > 1 ==> (n - 1) * chunk < total)
  {
    var n := (total + chunk - 1) / chunk;
    if n == 0 then 1 else n
  }

  /** min(chunk_size, total_size - index * chunk_size) */
  function ChunkSize(total: nat, chunk: nat, index: nat): nat
    requires chunk > 0 && index < ChunkCount(total, chunk)
  {
    StartsWithin(total, chunk, index);
    if chunk < total - index * chunk then chunk else total - index * chunk
  }

  /** Every chunk but the last is full, and the last ends the archive; an empty archive is one empty chunk. */
  lemma ChunksMean(total: nat, chunk: nat, index: nat)
    requires chunk > 0 && index < ChunkCount(total, chunk)
    ensures index + 1 < ChunkCount(total, chunk) ==> ChunkSize(total, chunk, index) == chunk && (index + 1) * chunk < total
    ensures index + 1 == ChunkCount(total, chunk) ==> index * chunk + ChunkSize(total, chunk, index) == total && ChunkSize(total, chunk, index) <= chunk
    ensures ChunkSize(total, chunk, index) == 0 <==> total == 0
  {
    hide ChunkCount;
    var n := ChunkCount(total, chunk);
    StartsWithin(total, chunk, index);
    assert (index + 1) * chunk == index * chunk + chunk;
    if index + 1 < n { assert (index + 1) * chunk <= (n - 1) * chunk; }
  }

  lemma StartsWithin(total: nat, chunk: nat, index: nat)
    requires chunk > 0 && index < ChunkCount(total, chunk)
    ensures index * chunk <= total
  {
    if index > 0 {
      var n := ChunkCount(total, chunk);
      assert index * chunk <= (n - 1) * chunk;
    }
  }

  /** The index-th piece of an archive. */
  function Piece(archive: Bytes, chunk: nat, index: nat): Bytes
    requires chunk > 0 && index < ChunkCount(|archive|, chunk)
  {
    StartsWithin(|archive|, chunk, index);
    archive[index * chunk..index * chunk + ChunkSize(|archive|, chunk, index)]
  }

  /** Where piece n starts, and the end of the archive for n past the last piece. */
  function Offset(total: nat, chunk: nat, n: nat): nat {
    if n * chunk < total then n * chunk else total
  }

  lemma PieceBounds(total: nat, chunk: nat, index: nat)
    requires chunk > 0 && index < ChunkCount(total, chunk)
    ensures index * chunk == Offset(total, chunk, index)
    ensures Offset(total, chunk, index) + ChunkSize(total, chunk, index) == Offset(total, chunk, index + 1) <= total
  {
    hide ChunkCount;
    StartsWithin(total, chunk, index);
    assert (index + 1) * chunk == index * chunk + chunk;
  }

  lemma LastOffset(total: nat, chunk: nat)
    requires chunk > 0
    ensures Offset(total, chunk, ChunkCount(total, chunk)) == total
  {
  }

  function SizesOf(total: nat, chunk: nat, n: nat): nat
    requires chunk > 0 && n <= ChunkCount(total, chunk)
  {
    if n == 0 then 0 else SizesOf(total, chunk, n - 1) + ChunkSize(total, chunk, n - 1)
  }

  lemma {:induction false} SizesReach(total: nat, chunk: nat, n: nat)
    requires chunk > 0 && n <= ChunkCount(total, chunk)
    ensures SizesOf(total, chunk, n) == Offset(total, chunk, n)
  {
    hide ChunkCount, ChunkSize;
    if n > 0 {
      SizesReach(total, chunk, n - 1);
      PieceBounds(total, chunk, n - 1);
    }
  }

  /** The declared chunk sizes sum to the archive size. */
  lemma SizesSumToTotal(total: nat, chunk: nat)
    requires chunk > 0
    ensures SizesOf(total, chunk, ChunkCount(total, chunk)) == total
  {
    hide ChunkCount, ChunkSize;
    SizesReach(total, chunk, ChunkCount(total, chunk));
    LastOffset(total, chunk);
  }

  function Joined(parts: map<nat, Bytes>, n: nat): Bytes {
    if n == 0 then [] else Joined(parts, n - 1) + if n - 1 in parts then parts[n - 1] else []
  }

  /** What one archive of the job is declared to be; sha256 stands for the original bytes. */
  datatype Declared = Declared(size: nat, chunk: nat, sha256: Bytes)

  predicate WellFormed(d: Declared) {
    d.chunk > 0
  }

  /** All pieces stored, each with its declared size. */
  predicate Stored(d: Declared, parts: map<nat, Bytes>)
    requires WellFormed(d)
  {
    forall i :: 0 <= i < ChunkCount(d.size, d.chunk) ==> i in parts && |parts[i]| == ChunkSize(d.size, d.chunk, i)
  }

  lemma {:induction false} JoinedPieces(archive: Bytes, chunk: nat, parts: map<nat, Bytes>, n: nat)
    requires chunk > 0 && n <= ChunkCount(|archive|, chunk)
    requires forall i :: 0 <= i < n ==> i in parts && parts[i] == Piece(archive, chunk, i)
    ensures Joined(parts, n) == archive[..Offset(|archive|, chunk, n)]
    decreases n
  {
    hide ChunkCount, ChunkSize, Offset;
    if n > 0 {
      JoinedPieces(archive, chunk, parts, n - 1);
      PieceBounds(|archive|, chunk, n - 1);
    } else {
      assert Offset(|archive|, chunk, 0) == 0 by { FirstOffset(|archive|, chunk); }
    }
  }

  lemma FirstOffset(total: nat, chunk: nat)
    ensures Offset(total, chunk, 0) == 0
  {
  }

  lemma {:induction false} JoinedLength(d: Declared, parts: map<nat, Bytes>, n: nat)
    requires WellFormed(d) && Stored(d, parts) && n <= ChunkCount(d.size, d.chunk)
    ensures |Joined(parts, n)| == Offset(d.size, d.chunk, n)
  {
    hide ChunkCount, ChunkSize, Offset;
    FirstOffset(d.size, d.chunk);
    if n > 0 {
      JoinedLength(d, parts, n - 1);
      PieceBounds(d.size, d.chunk, n - 1);
    }
  }

  lemma {:induction false} JoinedContains(d: Declared, parts: map<nat, Bytes>, n: nat, i: nat)
    requires WellFormed(d) && Stored(d, parts) && i < n <= ChunkCount(d.size, d.chunk)
    ensures var p := Offset(d.size, d.chunk, i);
      p + |parts[i]| <= |Joined(parts, n)| && Joined(parts, n)[p..p + |parts[i]|] == parts[i]
  {
    hide ChunkCount, ChunkSize, Offset, Stored;
    assert n - 1 in parts && i in parts by { StoredAt(d, parts, n - 1); StoredAt(d, parts, i); }
    if i < n - 1 {
      JoinedContains(d, parts, n - 1, i);
    } else {
      JoinedLength(d, parts, n - 1);
    }
  }

  lemma StoredAt(d: Declared, parts: map<nat, Bytes>, i: nat)
    requires WellFormed(d) && Stored(d, parts) && i < ChunkCount(d.size, d.chunk)
    ensures i in parts && |parts[i]| == ChunkSize(d.size, d.chunk, i)
  {
  }

  /** Once every piece is stored, assembly yields the original archive exactly when each stored piece is the original's. */
  lemma AssemblyRoundTrip(archive: Bytes, chunk: nat, parts: map<nat, Bytes>)
    requires chunk > 0 && Stored(Declared(|archive|, chunk, archive), parts)
    ensures var n := ChunkCount(|archive|, chunk);
      Joined(parts, n) == archive <==> forall i :: 0 <= i < n ==> parts[i] == Piece(archive, chunk, i)
  {
    hide ChunkCount, ChunkSize, Offset;
    var n := ChunkCount(|archive|, chunk);
    var d := Declared(|archive|, chunk, archive);
    if forall i :: 0 <= i < n ==> parts[i] == Piece(archive, chunk, i) {
      JoinedPieces(archive, chunk, parts, n);
      LastOffset(|archive|, chunk);
    }
    if Joined(parts, n) == archive {
      forall i | 0 <= i < n ensures parts[i] == Piece(archive, chunk, i) {
        JoinedContains(d, parts, n, i);
        PieceBounds(|archive|, chunk, i);
      }
    }
  }

  // ---- the endpoints ----

  datatype Row = Row(size: nat, sha256: Bytes)
  datatype Begun = Receive | BadRequest | Duplicate | Conflict | NotReceiving
  datatype Committed = Accepted | Mismatch | Again | Refused | Closed | Crashed

  function Put<V>(m: map<nat, V>, i: nat, v: V): map<nat, V> {
    m[i := v]
  }

  /** Bytes accepted so far among the first n chunks. */
  function AcceptedIn(d: Declared, rows: map<nat, Row>, n: nat): nat
    requires WellFormed(d) && n <= ChunkCount(d.size, d.chunk)
  {
    if n == 0 then 0 else AcceptedIn(d, rows, n - 1) + if n - 1 in rows then ChunkSize(d.size, d.chunk, n - 1) else 0
  }

  function AcceptedBytes(d: Declared, rows: map<nat, Row>): nat
    requires WellFormed(d)
  {
    AcceptedIn(d, rows, ChunkCount(d.size, d.chunk))
  }

  lemma {:induction false} AcceptedBound(d: Declared, rows: map<nat, Row>, n: nat)
    requires WellFormed(d) && n <= ChunkCount(d.size, d.chunk)
    ensures AcceptedIn(d, rows, n) <= SizesOf(d.size, d.chunk, n)
  {
    hide ChunkCount, ChunkSize;
    if n > 0 { AcceptedBound(d, rows, n - 1); }
  }

  lemma {:induction false} AcceptedNew(d: Declared, rows: map<nat, Row>, index: nat, row: Row, n: nat)
    requires WellFormed(d) && index < ChunkCount(d.size, d.chunk) && n <= ChunkCount(d.size, d.chunk) && index !in rows
    ensures AcceptedIn(d, rows[index := row], n) == AcceptedIn(d, rows, n) + if index < n then ChunkSize(d.size, d.chunk, index) else 0
  {
    hide ChunkCount, ChunkSize;
    if n > 0 { AcceptedNew(d, rows, index, row, n - 1); }
  }

  lemma NewFits(d: Declared, rows: map<nat, Row>, index: nat, row: Row)
    requires WellFormed(d) && index < ChunkCount(d.size, d.chunk) && index !in rows
    ensures AcceptedBytes(d, rows[index := row]) == AcceptedBytes(d, rows) + ChunkSize(d.size, d.chunk, index) <= d.size
  {
    hide ChunkCount, ChunkSize;
    AcceptedNew(d, rows, index, row, ChunkCount(d.size, d.chunk));
    AcceptedBound(d, rows[index := row], ChunkCount(d.size, d.chunk));
    SizesSumToTotal(d.size, d.chunk);
  }

  /** Every accepted chunk has its file, and the reservation is three times the input less what was accepted. */
  predicate Consistent(declared: map<Kind, Declared>, rows: map<Kind, map<nat, Row>>, parts: map<Kind, map<nat, Bytes>>, reserved: nat) {
    && declared.Keys == parts.Keys == rows.Keys == {Dataset, Kernel}
    && (forall k :: k in declared ==> WellFormed(declared[k]))
    && (forall k :: k in declared ==> Backed(declared[k], rows[k], parts[k]))
    && reserved == 3 * (declared[Dataset].size + declared[Kernel].size)
                   - AcceptedBytes(declared[Dataset], rows[Dataset]) - AcceptedBytes(declared[Kernel], rows[Kernel])
  }

  lemma BothKinds(declared: map<Kind, Declared>, rows: map<Kind, map<nat, Row>>, parts: map<Kind, map<nat, Bytes>>, reserved: nat)
    requires Consistent(declared, rows, parts, reserved)
    ensures forall k: Kind :: k in declared && k in parts && k in rows && WellFormed(declared[k])
  {
    hide ChunkCount, ChunkSize, AcceptedBytes, Backed;
    forall k: Kind ensures k in declared && k in parts && k in rows && WellFormed(declared[k]) {
      if k == Dataset { assert Dataset in {Dataset, Kernel}; } else { assert Kernel in {Dataset, Kernel}; }
    }
  }

  lemma StoreKeeps(declared: map<Kind, Declared>, rows: map<Kind, map<nat, Row>>, parts: map<Kind, map<nat, Bytes>>, reserved: nat,
                   kind: Kind, index: nat, body: Bytes)
    requires Consistent(declared, rows, parts, reserved) && index !in rows[kind]
    ensures Consistent(declared, rows, parts[kind := Put(parts[kind], index, body)], reserved)
  {
    hide ChunkCount, ChunkSize, AcceptedBytes;
    StillBacked(declared[kind], rows[kind], parts[kind], index, body);
  }

  lemma AcceptKeeps(declared: map<Kind, Declared>, rows: map<Kind, map<nat, Row>>, parts: map<Kind, map<nat, Bytes>>, reserved: nat,
                    kind: Kind, index: nat, body: Bytes)
    requires Consistent(declared, rows, parts, reserved) && index !in rows[kind] && index in parts[kind] && parts[kind][index] == body
    requires index < ChunkCount(declared[kind].size, declared[kind].chunk)
    requires |body| == ChunkSize(declared[kind].size, declared[kind].chunk, index)
    ensures |body| <= reserved
    ensures Consistent(declared, rows[kind := Put(rows[kind], index, Row(|body|, body))], parts, reserved - |body|)
  {
    hide ChunkCount, ChunkSize, AcceptedBytes, Backed;
    NewFits(declared[kind], rows[kind], index, Row(|body|, body));
    NewlyBacked(declared[kind], rows[kind], parts[kind], index, body);
    FitsAll(declared[Other(kind)], rows[Other(kind)]);
  }

  /** One job while it first receives its two archives. */
  class Upload {
    const declared: map<Kind, Declared>
    var parts: map<Kind, map<nat, Bytes>>    // {index}.part files
    var rows: map<Kind, map<nat, Row>>
    var reserved: nat
    var receiving: bool

    ghost predicate Valid()
      reads this
    {
      Consistent(declared, rows, parts, reserved)
    }

    constructor (dataset: Declared, kernel: Declared)
      requires WellFormed(dataset) && WellFormed(kernel)
      ensures Valid() && receiving && declared == map[Dataset := dataset, Kernel := kernel]
      ensures rows == map[Dataset := map[], Kernel := map[]]
    {
      declared := map[Dataset := dataset, Kernel := kernel];
      parts := map[Dataset := map[], Kernel := map[]];
      rows := map[Dataset := map[], Kernel := map[]];
      reserved := 3 * (dataset.size + kernel.size);
      receiving := true;
      NothingAccepted(dataset, ChunkCount(dataset.size, dataset.chunk));
      NothingAccepted(kernel, ChunkCount(kernel.size, kernel.chunk));
    }

    /** The declared header names a chunk of the archive: its index, its exact size, and 64 hexadecimal digits. */
    predicate Fitting(kind: Kind, index: int, size: int, hex: bool)
      requires kind in declared && WellFormed(declared[kind])
    {
      0 <= index < ChunkCount(declared[kind].size, declared[kind].chunk) && size == ChunkSize(declared[kind].size, declared[kind].chunk, index) && hex
    }

    /** Before the body: the declared header is checked under the job's lock.  Each answer is given exactly in its case. */
    method Begin(kind: Kind, index: int, size: int, sha256: Bytes, hex: bool) returns (r: Begun)
      requires Valid()
      ensures r == NotReceiving <==> !receiving
      ensures r == BadRequest <==> receiving && !Fitting(kind, index, size, hex)
      ensures r == Receive <==> receiving && Fitting(kind, index, size, hex) && index !in rows[kind]
      ensures r == Duplicate <==> receiving && Fitting(kind, index, size, hex) && index in rows[kind] && rows[kind][index] == Row(size, sha256)
      ensures r == Conflict <==> receiving && Fitting(kind, index, size, hex) && index in rows[kind] && rows[kind][index] != Row(size, sha256)
    {
      hide ChunkCount, ChunkSize, AcceptedBytes;
      if !receiving {
        return NotReceiving;
      }
      var d := declared[kind];
      if index < 0 || index >= ChunkCount(d.size, d.chunk) {
        return BadRequest;
      }
      if size != ChunkSize(d.size, d.chunk, index) {
        return BadRequest;
      }
      if !hex {
        return BadRequest;
      }
      if index in rows[kind] {
        if rows[kind][index] == Row(size, sha256) && index in parts[kind] {
          return Duplicate;
        }
        assert index in parts[kind] by { BackedAt(d, rows[kind], parts[kind], index); }
        return Conflict;
      }
      return Receive;
    }

    /** After the body of a request that Begin let through, whatever other requests did meanwhile.  The first stored
        piece of an index stays; the reservation shrinks by exactly the sizes of the accepted chunks. */
    method Commit(kind: Kind, index: nat, size: nat, sha256: Bytes, body: Bytes, crash: bool) returns (r: Committed)
      requires Valid()
      requires index < ChunkCount(declared[kind].size, declared[kind].chunk)
      requires size == ChunkSize(declared[kind].size, declared[kind].chunk, index)
      modifies this
      ensures Valid() && receiving == old(receiving)
      ensures r.Accepted? <==> old(receiving) && body == sha256 && |body| == size && index !in old(rows)[kind] && !crash
      ensures r.Accepted? ==> rows == old(rows)[kind := Put(old(rows)[kind], index, Row(size, body))] && parts[kind][index] == body
      ensures rows == if old(receiving) && body == sha256 && |body| == size && !crash
                      then old(rows)[kind := Deliver(declared[kind], old(rows)[kind], Delivery(index, body))] else old(rows)
      ensures r.Crashed? <==> old(receiving) && body == sha256 && |body| == size && index !in old(rows)[kind] && crash
      ensures r.Accepted? ==> reserved == old(reserved) - size
      ensures !r.Accepted? ==> rows == old(rows) && reserved == old(reserved)
      ensures r.Mismatch? <==> body != sha256 || |body| != size
      ensures r.Closed? <==> !old(receiving) && body == sha256 && |body| == size
      ensures r.Again? <==> old(receiving) && body == sha256 && |body| == size && index in old(rows)[kind] && old(rows)[kind][index] == Row(size, body)
      ensures r.Refused? <==> old(receiving) && body == sha256 && |body| == size && index in old(rows)[kind] && old(rows)[kind][index] != Row(size, body)
    {
      hide ChunkCount, ChunkSize, AcceptedIn, AcceptedBytes, Backed, Consistent;
      BothKinds(declared, rows, parts, reserved);
      if |body| != size || body != sha256 {
        return Mismatch;
      }
      if !receiving {
        return Closed;
      }
      if index in rows[kind] {
        if rows[kind][index] != Row(size, body) {
          return Refused;
        }
        return Again;
      }
      StoreKeeps(declared, rows, parts, reserved, kind, index, body);
      parts := parts[kind := Put(parts[kind], index, body)];
      if crash {
        return Crashed;
      }
      AcceptKeeps(declared, rows, parts, reserved, kind, index, body);
      rows := rows[kind := Put(rows[kind], index, Row(size, body))];
      reserved := Less(reserved, size);
      return Accepted;
    }

    /** Cancellation or an expired deadline: the job receives no more chunks. */
    method Close()
      modifies this`receiving
      ensures !receiving
    {
      receiving := false;
    }

    /** Completion asks for exactly the declared chunks, each with its file: of the kernel alone when the dataset is
        ready in the shared cache, of both archives otherwise.  Then the job stops receiving. */
    method Complete(cached: bool) returns (ok: bool)
      requires Valid()
      modifies this`receiving
      ensures ok <==> old(receiving) && AllThere(declared[Kernel], rows[Kernel]) && (!cached ==> AllThere(declared[Dataset], rows[Dataset]))
      ensures ok ==> Stored(declared[Kernel], parts[Kernel]) && (!cached ==> Stored(declared[Dataset], parts[Dataset]))
      ensures receiving == (old(receiving) && !ok)
    {
      hide ChunkCount, ChunkSize, AcceptedIn, AcceptedBytes, Backed, AllThere, Stored, Consistent, WellFormed;
      BothKinds(declared, rows, parts, reserved);
      var dataset := true;
      if !cached {
        dataset := CheckKind(Dataset);
      }
      var kernel := CheckKind(Kernel);
      ok := receiving && dataset && kernel;
      receiving := receiving && !ok;
    }

    method CheckKind(kind: Kind) returns (ok: bool)
      requires Valid()
      ensures ok <==> AllThere(declared[kind], rows[kind])
      ensures ok ==> Stored(declared[kind], parts[kind])
    {
      hide ChunkCount, ChunkSize, AcceptedBytes;
      var d := declared[kind];
      assert Backed(d, rows[kind], parts[kind]);
      ok := true;
      for i := 0 to ChunkCount(d.size, d.chunk)
        invariant ok <==> forall k :: 0 <= k < i ==> k in rows[kind]
      {
        if i !in rows[kind] || i !in parts[kind] {
          ok := false;
        }
      }
    }

    /** Copies the pieces in order into the archive and accepts it only with the declared size and digest. */
    method Assemble(kind: Kind) returns (archive: Option<Bytes>)
      requires Valid()
      ensures Stored(declared[kind], parts[kind]) ==>
                (archive.Some? <==> Joined(parts[kind], ChunkCount(declared[kind].size, declared[kind].chunk)) == declared[kind].sha256
                                    && |declared[kind].sha256| == declared[kind].size)
      ensures archive.Some? ==> archive.value == declared[kind].sha256
    {
      var d := declared[kind];
      var out: Bytes := [];
      for i := 0 to ChunkCount(d.size, d.chunk)
        invariant out == Joined(parts[kind], i)
      {
        if i !in parts[kind] {
          return None;
        }
        out := CopyFile(parts[kind][i], out);
      }
      if |out| != d.size {
        return None;
      }
      archive := if out == d.sha256 then Some(out) else None;
      if Stored(d, parts[kind]) { JoinedLength(d, parts[kind], ChunkCount(d.size, d.chunk)); LastOffset(d.size, d.chunk); }
    }
  }

  const BLOCK: nat := 1048576

  /** The source is read in blocks of one mebibyte. */
  method CopyFile(src: Bytes, out0: Bytes) returns (out: Bytes)
    ensures out == out0 + src
  {
    out := out0;
    var read := 0;
    while read < |src|
      invariant read <= |src| && out == out0 + src[..read]
    {
      var next := if read + BLOCK < |src| then read + BLOCK else |src|;
      out := out + src[read..next];
      assert src[..read] + src[read..next] == src[..next];
      read := next;
    }
    assert src[..|src|] == src;
  }

  function Other(kind: Kind): Kind {
    if kind == Dataset then Kernel else Dataset
  }

  /** Every accepted chunk has a file with the accepted bytes. */
  predicate Backed(d: Declared, rows: map<nat, Row>, parts: map<nat, Bytes>)
    requires WellFormed(d)
  {
    forall i :: i in rows ==> i < ChunkCount(d.size, d.chunk) && i in parts && rows[i] == Row(|parts[i]|, parts[i])
                              && |parts[i]| == ChunkSize(d.size, d.chunk, i)
  }

  predicate AllThere(d: Declared, rows: map<nat, Row>)
    requires WellFormed(d)
  {
    forall i :: 0 <= i < ChunkCount(d.size, d.chunk) ==> i in rows
  }

  lemma BackedAt(d: Declared, rows: map<nat, Row>, parts: map<nat, Bytes>, i: nat)
    requires WellFormed(d) && Backed(d, rows, parts) && i in rows
    ensures i in parts
  {
  }

  lemma StillBacked(d: Declared, rows: map<nat, Row>, parts: map<nat, Bytes>, index: nat, body: Bytes)
    requires WellFormed(d) && Backed(d, rows, parts) && index !in rows
    ensures Backed(d, rows, parts[index := body])
  {
  }

  lemma NewlyBacked(d: Declared, rows: map<nat, Row>, parts: map<nat, Bytes>, index: nat, body: Bytes)
    requires WellFormed(d) && Backed(d, rows, parts) && index in parts && parts[index] == body
    requires index < ChunkCount(d.size, d.chunk) && |body| == ChunkSize(d.size, d.chunk, index)
    ensures Backed(d, rows[index := Row(|body|, body)], parts)
  {
  }

  lemma FitsAll(d: Declared, rows: map<nat, Row>)
    requires WellFormed(d)
    ensures AcceptedBytes(d, rows) <= d.size
  {
    hide ChunkCount, ChunkSize;
    AcceptedBound(d, rows, ChunkCount(d.size, d.chunk));
    SizesSumToTotal(d.size, d.chunk);
  }

  lemma {:induction false} NothingAccepted(d: Declared, n: nat)
    requires WellFormed(d) && n <= ChunkCount(d.size, d.chunk)
    ensures AcceptedIn(d, map[], n) == 0
  {
    if n > 0 { NothingAccepted(d, n - 1); }
  }

  // ---- any delivery ----

  /** The bodies that reach the commit of one archive, in commit order. */
  datatype Delivery = Delivery(index: nat, body: Bytes)

  function Deliver(d: Declared, rows: map<nat, Row>, x: Delivery): map<nat, Row>
    requires WellFormed(d)
  {
    if x.index < ChunkCount(d.size, d.chunk) && |x.body| == ChunkSize(d.size, d.chunk, x.index) && x.index !in rows
    then rows[x.index := Row(|x.body|, x.body)] else rows
  }

  function DeliverAll(d: Declared, xs: seq<Delivery>): map<nat, Row>
    requires WellFormed(d)
  {
    if xs == [] then map[] else Deliver(d, DeliverAll(d, xs[..|xs| - 1]), xs[|xs| - 1])
  }

  predicate Fits(d: Declared, x: Delivery)
    requires WellFormed(d)
  {
    x.index < ChunkCount(d.size, d.chunk) && |x.body| == ChunkSize(d.size, d.chunk, x.index)
  }

  /** Delivery k is the first that fits for its index. */
  predicate First(d: Declared, xs: seq<Delivery>, k: nat)
    requires WellFormed(d) && k < |xs|
  {
    Fits(d, xs[k]) && forall m :: 0 <= m < k ==> !(Fits(d, xs[m]) && xs[m].index == xs[k].index)
  }

  /** The first fitting delivery of each index is the one that is stored. */
  lemma {:induction false} FirstDeliveryWins(d: Declared, xs: seq<Delivery>, i: nat)
    requires WellFormed(d) && i < ChunkCount(d.size, d.chunk)
    ensures i in DeliverAll(d, xs) <==> exists k :: 0 <= k < |xs| && Fits(d, xs[k]) && xs[k].index == i
    ensures i in DeliverAll(d, xs) ==>
              exists k :: 0 <= k < |xs| && First(d, xs, k) && xs[k].index == i && DeliverAll(d, xs)[i] == Row(|xs[k].body|, xs[k].body)
  {
    hide ChunkCount, ChunkSize;
    if xs != [] {
      var ys := xs[..|xs| - 1];
      FirstDeliveryWins(d, ys, i);
      if i in DeliverAll(d, ys) {
        var k :| 0 <= k < |ys| && First(d, ys, k) && ys[k].index == i && DeliverAll(d, ys)[i] == Row(|ys[k].body|, ys[k].body);
        assert xs[k] == ys[k] && First(d, xs, k);
      } else {
        assert forall m :: 0 <= m < |ys| ==> xs[m] == ys[m];
      }
    }
  }

  function Contents(rows: map<nat, Row>): map<nat, Bytes> {
    map i | i in rows :: rows[i].sha256
  }

  /** Round trip: if every index is delivered and, for each, the first delivery that fits is the original's piece,
      then whatever duplicates, conflicts and order there were, assembly yields the original bytes; and if some first
      delivery differs, it yields something else. */
  lemma DeliveriesRoundTrip(archive: Bytes, chunk: nat, xs: seq<Delivery>)
    requires chunk > 0
    requires var d := Declared(|archive|, chunk, archive); AllThere(d, DeliverAll(d, xs))
    ensures var d := Declared(|archive|, chunk, archive);
      Joined(Contents(DeliverAll(d, xs)), ChunkCount(|archive|, chunk)) == archive <==>
        forall k :: 0 <= k < |xs| && First(d, xs, k) ==> xs[k].body == Piece(archive, chunk, xs[k].index)
  {
    hide ChunkCount, ChunkSize, Joined, Piece, DeliverAll, Fits, Stored;
    var d := Declared(|archive|, chunk, archive);
    var rows := DeliverAll(d, xs);
    var n := ChunkCount(|archive|, chunk);
    assert Stored(d, Contents(rows)) by { DeliveredStored(d, xs); }
    AssemblyRoundTrip(archive, chunk, Contents(rows));
    forall k | 0 <= k < |xs| && First(d, xs, k) ensures xs[k].index < n && Contents(rows)[xs[k].index] == xs[k].body {
      StoredFirst(d, xs, k);
    }
    if forall k :: 0 <= k < |xs| && First(d, xs, k) ==> xs[k].body == Piece(archive, chunk, xs[k].index) {
      forall i | 0 <= i < n ensures Contents(rows)[i] == Piece(archive, chunk, i) {
        FirstOf(d, xs, i);
        var k :| 0 <= k < |xs| && First(d, xs, k) && xs[k].index == i;
      }
    }
  }

  lemma DeliveredStored(d: Declared, xs: seq<Delivery>)
    requires WellFormed(d) && AllThere(d, DeliverAll(d, xs))
    ensures Stored(d, Contents(DeliverAll(d, xs)))
  {
    hide ChunkCount, ChunkSize;
    forall i | 0 <= i < ChunkCount(d.size, d.chunk)
      ensures i in Contents(DeliverAll(d, xs)) && |Contents(DeliverAll(d, xs))[i]| == ChunkSize(d.size, d.chunk, i)
    {
      FirstDeliveryWins(d, xs, i);
    }
  }

  lemma StoredFirst(d: Declared, xs: seq<Delivery>, k: nat)
    requires WellFormed(d) && k < |xs| && First(d, xs, k)
    ensures xs[k].index < ChunkCount(d.size, d.chunk) && xs[k].index in DeliverAll(d, xs)
    ensures Contents(DeliverAll(d, xs))[xs[k].index] == xs[k].body
  {
    hide ChunkCount, ChunkSize;
    FirstDeliveryWins(d, xs, xs[k].index);
  }

  lemma FirstOf(d: Declared, xs: seq<Delivery>, i: nat)
    requires WellFormed(d) && i < ChunkCount(d.size, d.chunk) && i in DeliverAll(d, xs)
    ensures exists k :: 0 <= k < |xs| && First(d, xs, k) && xs[k].index == i
  {
    hide ChunkCount, ChunkSize;
    FirstDeliveryWins(d, xs, i);
  }

  // ---- the endpoints under any stream of requests ----

  /** Requests as they take effect.  A body is streamed without the lock, so any number of opened streams may be under
      way at once; crash: the service dies between the rename of the chunk file and its database row. */
  datatype Request =
    | Open(stream: nat, kind: Kind, index: int, size: int, sha256: Bytes, hex: bool)
    | Send(stream: nat, body: Bytes, crash: bool)
    | Shut

  datatype Header = Header(kind: Kind, index: nat, size: nat, sha256: Bytes)

  /** The accepted chunks, whether the job still receives, and the streams under way. */
  datatype Board = Board(rows: map<Kind, map<nat, Row>>, receiving: bool, open: map<nat, Header>)

  predicate BothDeclared(declared: map<Kind, Declared>) {
    forall k: Kind :: k in declared && WellFormed(declared[k])
  }

  predicate HeaderFits(d: Declared, index: int, size: int, hex: bool)
    requires WellFormed(d)
  {
    0 <= index < ChunkCount(d.size, d.chunk) && size == ChunkSize(d.size, d.chunk, index) && hex
  }

  /** The body is the one its header announced. */
  predicate Announced(b: Board, q: Request) {
    q.Send? && q.stream in b.open && b.receiving && q.body == b.open[q.stream].sha256 && |q.body| == b.open[q.stream].size
  }

  function Handle(declared: map<Kind, Declared>, b: Board, q: Request): (r: Board)
    requires BothDeclared(declared) && forall k: Kind :: k in b.rows
    ensures forall k: Kind :: k in r.rows
  {
    match q
    case Open(s, k, i, n, h, hex) =>
      if s !in b.open && b.receiving && HeaderFits(declared[k], i, n, hex) && i !in b.rows[k] then b.(open := b.open[s := Header(k, i, n, h)]) else b
    case Send(s, body, crash) =>
      if s !in b.open then b
      else
        var h := b.open[s];
        if !Announced(b, q) then b.(open := b.open - {s})
        else if crash && h.index !in b.rows[h.kind] then b.(open := map[])
        else if crash then b.(open := b.open - {s})
        else b.(rows := b.rows[h.kind := Deliver(declared[h.kind], b.rows[h.kind], Delivery(h.index, body))], open := b.open - {s})
    case Shut => b.(receiving := false)
  }

  const EMPTY_ROWS: map<Kind, map<nat, Row>> := map[Dataset := map[], Kernel := map[]]

  lemma EmptyKinds()
    ensures forall k: Kind :: k in EMPTY_ROWS && EMPTY_ROWS[k] == map[]
  {
    forall k: Kind ensures k in EMPTY_ROWS && EMPTY_ROWS[k] == map[] {
      if k == Dataset {} else {}
    }
  }

  function After(declared: map<Kind, Declared>, qs: seq<Request>): (b: Board)
    requires BothDeclared(declared)
    ensures forall k: Kind :: k in b.rows
  {
    if qs == [] then EmptyKinds(); Board(EMPTY_ROWS, true, map[])
    else Handle(declared, After(declared, qs[..|qs| - 1]), qs[|qs| - 1])
  }

  /** The body that the request commits to an archive, if it does. */
  function Committing(b: Board, q: Request, k: Kind): Option<Delivery> {
    if Announced(b, q) && !q.crash && b.open[q.stream].kind == k then Some(Delivery(b.open[q.stream].index, q.body)) else None
  }

  /** The bodies of one archive that passed the checks of their commit, in that order. */
  function Passing(declared: map<Kind, Declared>, qs: seq<Request>, k: Kind): seq<Delivery>
    requires BothDeclared(declared)
  {
    if qs == [] then []
    else
      var x := Committing(After(declared, qs[..|qs| - 1]), qs[|qs| - 1], k);
      Passing(declared, qs[..|qs| - 1], k) + if x.Some? then [x.value] else []
  }

  lemma {:induction false} RowsDelivered(declared: map<Kind, Declared>, qs: seq<Request>, k: Kind)
    requires BothDeclared(declared)
    ensures After(declared, qs).rows[k] == DeliverAll(declared[k], Passing(declared, qs, k))
  {
    hide Deliver, Handle, Committing, DeliverAll;
    if qs == [] {
      EmptyKinds();
      DeliverNone(declared[k]);
    } else {
      RowsDelivered(declared, qs[..|qs| - 1], k);
      var b, q := After(declared, qs[..|qs| - 1]), qs[|qs| - 1];
      var xs := Passing(declared, qs[..|qs| - 1], k);
      HandledRows(declared, b, q, k);
      if Committing(b, q, k).Some? {
        assert Passing(declared, qs, k) == xs + [Committing(b, q, k).value];
        DeliverLast(declared[k], xs, Committing(b, q, k).value);
      } else {
        assert Passing(declared, qs, k) == xs + [] == xs;
      }
    }
  }

  lemma DeliverNone(d: Declared)
    requires WellFormed(d)
    ensures DeliverAll(d, []) == map[]
  {
  }

  lemma DeliverLast(d: Declared, xs: seq<Delivery>, x: Delivery)
    requires WellFormed(d)
    ensures DeliverAll(d, xs + [x]) == Deliver(d, DeliverAll(d, xs), x)
  {
    hide Deliver;
    assert (xs + [x])[..|xs|] == xs;
  }

  /** One request changes the rows of an archive only by a passing body. */
  lemma HandledRows(declared: map<Kind, Declared>, b: Board, q: Request, k: Kind)
    requires BothDeclared(declared) && forall i: Kind :: i in b.rows
    ensures Handle(declared, b, q).rows[k] ==
            if Committing(b, q, k).Some? then Deliver(declared[k], b.rows[k], Committing(b, q, k).value) else b.rows[k]
  {
    hide Deliver, HeaderFits;
  }

  /** The endpoints handle the requests one after another as specified. */
  method ServeAll(u: Upload, qs: seq<Request>)
    requires u.Valid() && u.receiving && u.rows == EMPTY_ROWS
    modifies u
    ensures u.Valid() && BothDeclared(u.declared)
    ensures u.rows == After(u.declared, qs).rows && u.receiving == After(u.declared, qs).receiving
  {
    hide ChunkCount, ChunkSize, AcceptedBytes, Consistent, Backed, Deliver;
    BothKinds(u.declared, u.rows, u.parts, u.reserved);
    var open: map<nat, Header> := map[];
    for i := 0 to |qs|
      invariant u.Valid() && BothDeclared(u.declared)
      invariant Board(u.rows, u.receiving, open) == After(u.declared, qs[..i])
      invariant forall s :: s in open ==> HeaderFits(u.declared[open[s].kind], open[s].index, open[s].size, true)
    {
      BothKinds(u.declared, u.rows, u.parts, u.reserved);
      assert qs[..i + 1][..i] == qs[..i];
      match qs[i] {
        case Open(s, k, index, size, sha256, hex) =>
          if s !in open {
            var r := u.Begin(k, index, size, sha256, hex);
            if r.Receive? {
              open := open[s := Header(k, index, size, sha256)];
            }
          }
        case Send(s, body, crash) =>
          if s in open {
            var h := open[s];
            var r := u.Commit(h.kind, h.index, h.size, h.sha256, body, crash);
            open := if r.Crashed? then map[] else open - {s};
          }
        case Shut => u.Close();
      }
    }
    assert qs[..|qs|] == qs;
  }

  /** Every first passing body of an index is the original's piece. */
  predicate FirstsAreOriginal(d: Declared, xs: seq<Delivery>)
    requires WellFormed(d) && d.size == |d.sha256|
  {
    forall k :: 0 <= k < |xs| && First(d, xs, k) ==> xs[k].body == Piece(d.sha256, d.chunk, xs[k].index)
  }

  /** A whole upload: whatever streams, duplicates, conflicts, bad bodies and crashes there are, completion succeeds
      exactly when each index of both archives had a passing body while the job was receiving, and assembling then
      returns an archive's original bytes exactly when each of its first passing bodies is the original's piece. */
  method Session(u: Upload, qs: seq<Request>) returns (completed: bool, dataset: Option<Bytes>, kernel: Option<Bytes>)
    requires u.Valid() && u.receiving && u.rows == EMPTY_ROWS
    modifies u
    ensures BothDeclared(u.declared)
    ensures completed <==> && After(u.declared, qs).receiving
                           && AllThere(u.declared[Dataset], DeliverAll(u.declared[Dataset], Passing(u.declared, qs, Dataset)))
                           && AllThere(u.declared[Kernel], DeliverAll(u.declared[Kernel], Passing(u.declared, qs, Kernel)))
    ensures completed && u.declared[Dataset].size == |u.declared[Dataset].sha256| ==>
              (dataset == Some(u.declared[Dataset].sha256) <==> FirstsAreOriginal(u.declared[Dataset], Passing(u.declared, qs, Dataset)))
    ensures completed && u.declared[Kernel].size == |u.declared[Kernel].sha256| ==>
              (kernel == Some(u.declared[Kernel].sha256) <==> FirstsAreOriginal(u.declared[Kernel], Passing(u.declared, qs, Kernel)))
  {
    hide ChunkCount, ChunkSize, AcceptedBytes, Consistent, Backed, Deliver, AllThere, Stored, After, Passing, FirstsAreOriginal, Joined, DeliverAll;
    dataset, kernel := None, None;
    ServeAll(u, qs);
    RowsDelivered(u.declared, qs, Dataset);
    RowsDelivered(u.declared, qs, Kernel);
    completed := u.Complete(false);
    if completed {
      dataset := u.Assemble(Dataset);
      kernel := u.Assemble(Kernel);
      ArchiveRoundTrip(u.declared, u.rows, u.parts, u.reserved, Dataset, Passing(u.declared, qs, Dataset));
      ArchiveRoundTrip(u.declared, u.rows, u.parts, u.reserved, Kernel, Passing(u.declared, qs, Kernel));
    }
  }

  /** The part files join to the original exactly when the first passing bodies are the original's pieces. */
  lemma ArchiveRoundTrip(declared: map<Kind, Declared>, rows: map<Kind, map<nat, Row>>, parts: map<Kind, map<nat, Bytes>>, reserved: nat,
                         k: Kind, xs: seq<Delivery>)
    requires Consistent(declared, rows, parts, reserved) && rows[k] == DeliverAll(declared[k], xs) && AllThere(declared[k], rows[k])
    ensures declared[k].size == |declared[k].sha256| ==>
              (Joined(parts[k], ChunkCount(declared[k].size, declared[k].chunk)) == declared[k].sha256 <==> FirstsAreOriginal(declared[k], xs))
  {
    hide ChunkCount, ChunkSize, AcceptedBytes, Joined, Deliver, DeliverAll;
    var d := declared[k];
    assert Backed(d, rows[k], parts[k]);
    if d.size == |d.sha256| {
      SameJoined(d, rows[k], parts[k], ChunkCount(d.size, d.chunk));
      assert d == Declared(|d.sha256|, d.chunk, d.sha256);
      DeliveriesRoundTrip(d.sha256, d.chunk, xs);
    }
  }

  /** The part files of the accepted chunks hold the accepted bytes. */
  lemma {:induction false} SameJoined(d: Declared, rows: map<nat, Row>, parts: map<nat, Bytes>, n: nat)
    requires WellFormed(d) && Backed(d, rows, parts) && AllThere(d, rows) && n <= ChunkCount(d.size, d.chunk)
    ensures Joined(parts, n) == Joined(Contents(rows), n)
  {
    hide ChunkCount, ChunkSize;
    if n > 0 {
      SameJoined(d, rows, parts, n - 1);
      assert n - 1 in rows && rows[n - 1] == Row(|parts[n - 1]|, parts[n - 1]);
    }
  }
}
