/** Chunk geometry, per-chunk hashing and the byte budgets of one chunk transfer. */
module Chunks {

  type Byte = x: int | 0 <= x < 256

  const CHUNK := 524288
  const BLOCK := 1024
  const DIGEST := 20
  /** What the sender really emits: its budget is CHUNK + 1, spent in whole blocks. */
  const EMITTED := 525312
  const INT_MAX := 2147483647

  function Min(a: int, b: int): int {
    if a <= b then a else b
  }

  /******* Geometry *******/

  /** Where chunk `k` starts: k * CHUNK. */
  function Offset(k: nat): nat {
    k * 524288
  }

  /** Where the digest of chunk `k` starts in the full hash: k * DIGEST. */
  function HashOffset(k: nat): nat {
    k * 20
  }

  function NumChunks(size: nat): nat {
    size / 524288 + if size % 524288 != 0 then 1 else 0
  }

  /** `fseek` to `pos` and `fread` of at most `max` bytes. */
  function Fread(file: seq<Byte>, pos: nat, max: nat): seq<Byte> {
    if pos >= |file| then [] else file[pos..Min(pos + max, |file|)]
  }

  function Chunk(file: seq<Byte>, k: nat): seq<Byte> {
    Fread(file, Offset(k), CHUNK)
  }

  lemma ChunkInside(size: nat, k: nat)
    ensures k < NumChunks(size) <==> Offset(k) < size
  {
  }

  lemma ChunkCount(size: nat, n: nat)
    requires size <= Offset(n) && (n == 0 || Offset(n - 1) < size)
    ensures n == NumChunks(size)
  {
  }

  /** Every chunk offset fits a signed 32-bit int exactly when the file has at most 2^31 bytes. */
  lemma OffsetsFit(size: nat)
    ensures (forall k: nat :: k < NumChunks(size) ==> Offset(k) <= INT_MAX) <==> size <= INT_MAX + 1
  {
    if size > INT_MAX + 1 {
      ChunkInside(size, 4096);
      assert 4096 < NumChunks(size) && Offset(4096) > INT_MAX;
    }
    forall k: nat | k < NumChunks(size) ensures Offset(k) < size {
      ChunkInside(size, k);
    }
    if size <= INT_MAX + 1 {
      assert forall k: nat :: k < NumChunks(size) ==> Offset(k) <= INT_MAX;
    }
  }

  /** Two files that agree on every chunk are equal. */
  lemma {:induction false} SameChunksSameFile(f: seq<Byte>, g: seq<Byte>)
    requires |f| == |g|
    requires forall k: nat :: k < NumChunks(|g|) ==> Chunk(f, k) == Chunk(g, k)
    ensures f == g
  {
    forall o | 0 <= o < |f| ensures f[o] == g[o] {
      var k := o / 524288;
      ChunkInside(|g|, k);
      var at := o - Offset(k);
      assert Chunk(f, k)[at] == f[o] && Chunk(g, k)[at] == g[o];
    }
  }

  /******* Hashing *******/

  /** A digest function yields DIGEST characters for every input. */
  type Digest = d: seq<Byte> -> string | forall b: seq<Byte> :: |d(b)| == DIGEST
    witness (b: seq<Byte>) => "00000000000000000000"

  /** Concatenated digests of the first `n` chunks. */
  function HashUpTo(digest: Digest, file: seq<Byte>, n: nat): (h: string)
    ensures |h| == HashOffset(n)
  {
    if n == 0 then "" else HashUpTo(digest, file, n - 1) + digest(Chunk(file, n - 1))
  }

  function FileHash(digest: Digest, file: seq<Byte>): string {
    HashUpTo(digest, file, NumChunks(|file|))
  }

  /** `fullhash.substr(pos, len)`, which throws when `pos` is past the end. */
  function Substr(s: string, pos: nat, len: nat): string
    requires pos <= |s|
  {
    s[pos..Min(pos + len, |s|)]
  }

  /** The incremental check of one chunk against its slice of the full hash. */
  predicate ChunkCheck(digest: Digest, file: seq<Byte>, k: nat, fullhash: string)
    requires HashOffset(k) <= |fullhash|
  {
    digest(Chunk(file, k)) == Substr(fullhash, HashOffset(k), DIGEST)
  }

  lemma {:induction false} HashSlice(digest: Digest, file: seq<Byte>, n: nat, k: nat)
    requires k < n
    ensures Substr(HashUpTo(digest, file, n), HashOffset(k), DIGEST) == digest(Chunk(file, k))
  {
    var h := HashUpTo(digest, file, n - 1);
    if k == n - 1 {
      assert (h + digest(Chunk(file, k)))[HashOffset(k)..] == digest(Chunk(file, k));
    } else {
      HashSlice(digest, file, n - 1, k);
      assert Substr(h + digest(Chunk(file, n - 1)), HashOffset(k), DIGEST) == Substr(h, HashOffset(k), DIGEST);
    }
  }

  /** The slice a correct hash holds for chunk `k` is in range and is that chunk's digest. */
  lemma CheckMeansDigest(digest: Digest, f: seq<Byte>, g: seq<Byte>, k: nat)
    requires k < NumChunks(|g|)
    ensures HashOffset(k) + DIGEST <= |FileHash(digest, g)|
    ensures ChunkCheck(digest, f, k, FileHash(digest, g)) <==> digest(Chunk(f, k)) == digest(Chunk(g, k))
  {
    HashSlice(digest, g, NumChunks(|g|), k);
  }

  lemma {:induction false} SameDigestsSameHash(digest: Digest, f: seq<Byte>, g: seq<Byte>, n: nat)
    requires forall k: nat :: k < n ==> digest(Chunk(f, k)) == digest(Chunk(g, k))
    ensures HashUpTo(digest, f, n) == HashUpTo(digest, g, n)
  {
    if n > 0 {
      SameDigestsSameHash(digest, f, g, n - 1);
    }
  }

  /** Checking every chunk incrementally accepts exactly the files the whole-file comparison accepts. */
  lemma ChunkChecksIffWholeHash(digest: Digest, f: seq<Byte>, g: seq<Byte>)
    requires NumChunks(|f|) == NumChunks(|g|)
    ensures |FileHash(digest, g)| == NumChunks(|g|) * DIGEST
    ensures (forall k: nat :: k < NumChunks(|g|) ==> ChunkCheck(digest, f, k, FileHash(digest, g)))
       <==> FileHash(digest, f) == FileHash(digest, g)
  {
    var n := NumChunks(|g|);
    forall k: nat | k < n
      ensures ChunkCheck(digest, f, k, FileHash(digest, g)) <==> digest(Chunk(f, k)) == digest(Chunk(g, k))
    {
      CheckMeansDigest(digest, f, g, k);
    }
    if forall k: nat :: k < n ==> ChunkCheck(digest, f, k, FileHash(digest, g)) {
      SameDigestsSameHash(digest, f, g, n);
    }
    if FileHash(digest, f) == FileHash(digest, g) {
      forall k: nat | k < n ensures digest(Chunk(f, k)) == digest(Chunk(g, k)) {
        HashSlice(digest, f, n, k);
        HashSlice(digest, g, n, k);
      }
    }
  }

  /** The hashing loop: read CHUNK bytes at a time until `fread` returns nothing. */
  method GetFileHash(digest: Digest, file: seq<Byte>) returns (hash: string, size: nat)
    ensures size == |file|
    ensures hash == FileHash(digest, file)
  {
    hash, size := "", 0;
    var data := Fread(file, 0, CHUNK);
    ghost var n := 0;
    while data != []
      invariant size == Min(Offset(n), |file|)
      invariant n == 0 || Offset(n - 1) < |file|
      invariant data == Chunk(file, n)
      invariant hash == HashUpTo(digest, file, n)
      decreases |file| - size
    {
      hash := hash + digest(data);
      size := size + |data|;
      n := n + 1;
      data := Fread(file, size, CHUNK);
    }
    ChunkCount(|file|, n);
  }

  /******* One transfer *******/

  /** The bytes a seeder holding `copy` puts on the wire for the chunk at `pos`. */
  function Emission(copy: seq<Byte>, pos: nat): seq<Byte> {
    Fread(copy, pos, EMITTED)
  }

  /** The send loop: blocks of BLOCK bytes while the budget of CHUNK + 1 is positive. */
  method TransferFunction(copy: seq<Byte>, pos: nat) returns (sent: seq<Byte>)
    ensures sent == Emission(copy, pos)
  {
    sent := [];
    var total: int := CHUNK + 1;
    var at := pos;
    while at < |copy| && total > 0
      invariant pos <= at
      invariant at <= |copy| || at == pos
      invariant |sent| == at - pos == CHUNK + 1 - total
      invariant at < |copy| ==> |sent| % 1024 == 0
      invariant pos + |sent| <= |copy| || sent == []
      invariant sent == if pos >= |copy| then [] else copy[pos..pos + |sent|]
      invariant |sent| <= EMITTED
      decreases |copy| - at
    {
      var n := Min(BLOCK, |copy| - at);
      sent := sent + copy[at..at + n];
      at := at + n;
      total := total - n;
    }
    assert total <= 0 && at < |copy| ==> |sent| == EMITTED;
  }

  /** `file` with `data` written at offset `at`. */
  function Overwrite(file: seq<Byte>, at: nat, data: seq<Byte>): (r: seq<Byte>)
    requires at + |data| <= |file|
    ensures |r| == |file|
  {
    file[..at] + data + file[at + |data|..]
  }

  /** The first `n` bytes, and the rest, of a slice of the source. */
  lemma SliceParts(source: seq<Byte>, slice: seq<Byte>, at: nat, n: nat)
    requires at + |slice| <= |source| && slice == source[at..at + |slice|] && n <= |slice|
    ensures slice[..n] == source[at..at + n]
    ensures slice[n..] == source[at + n..at + |slice|]
  {
  }

  /** Two adjacent writes are one write. */
  lemma OverwriteTwice(file: seq<Byte>, at: nat, data: seq<Byte>, i: nat, j: nat)
    requires i <= j <= |data| && at + |data| <= |file|
    ensures Overwrite(Overwrite(file, at, data[..i]), at + i, data[i..j]) == Overwrite(file, at, data[..j])
  {
  }

  /** `fwrite` of one received piece. */
  method WriteAt(file: array<Byte>, at: nat, data: seq<Byte>)
    requires at + |data| <= file.Length
    modifies file
    ensures file[..] == Overwrite(old(file[..]), at, data)
  {
    forall j | 0 <= j < |data| {
      file[at + j] := data[j];
    }
  }

  /** `recv` with `left` bytes still to arrive: any piece of at most BLOCK of them, or 0 when none is left. */
  method Recv(left: nat) returns (n: nat)
    ensures n <= left && n <= BLOCK
    ensures n == 0 <==> left == 0
  {
    if left == 0 {
      return 0;
    }
    n :| 1 <= n <= left && n <= BLOCK;
  }

  /**
    The receive loop on a connection that is lost after `arrives` bytes of the stream. Each `recv` yields between 1
    and BLOCK bytes; `cut` reports that the connection ended before the loop was done with it. The loop stops only
    once its budget of CHUNK is exhausted, so it may write up to BLOCK - 1 bytes past the chunk.
   */
  method ReceiveLoop(file: array<Byte>, pos: nat, stream: seq<Byte>, arrives: nat) returns (written: nat, cut: bool)
    requires pos + |stream| <= file.Length && arrives <= |stream|
    modifies file
    ensures Min(CHUNK, arrives) <= written <= arrives && written <= CHUNK + BLOCK - 1
    ensures cut <==> arrives < Min(CHUNK, |stream|)
    ensures file[..] == Overwrite(old(file[..]), pos, stream[..written])
  {
    written := 0;
    var budget: int := CHUNK;
    var n := Recv(arrives);
    while n > 0 && budget > 0
      invariant 0 <= n <= BLOCK && 0 <= written <= arrives - n && (n == 0 <==> written == arrives)
      invariant budget == CHUNK - written > -BLOCK
      invariant file[..] == Overwrite(old(file[..]), pos, stream[..written])
      decreases arrives - written
    {
      WriteAt(file, pos + written, stream[written..written + n]);
      OverwriteTwice(old(file[..]), pos, stream, written, written + n);
      written, budget := written + n, budget - n;
      n := Recv(arrives - written);
    }
    cut := budget > 0 && written < |stream|;
  }

  /** A whole stream of a complete copy covers the chunk and never leaves the file. */
  lemma EmissionCovers(copy: seq<Byte>, k: nat)
    requires k < NumChunks(|copy|)
    ensures |Emission(copy, Offset(k))| == Min(EMITTED, |copy| - Offset(k)) >= |Chunk(copy, k)| > 0
    ensures |Chunk(copy, k)| == Min(CHUNK, |Emission(copy, Offset(k))|)
    ensures Emission(copy, Offset(k))[..|Chunk(copy, k)|] == Chunk(copy, k)
  {
  }
}
