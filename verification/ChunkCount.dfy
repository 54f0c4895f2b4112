/** How many chunks a local file has (retrieve_info_from_local_file). */
module ChunkCount {
  import opened Division

  const USHORT := 0x1_0000

  /** The text: the size is narrowed to 16 bits, and the remainder is taken of the quotient. */
  function CountAsWritten(size: nat, chunkSize: nat): nat
    requires chunkSize > 0
  {
    var narrow := size % USHORT;
    var chunks := narrow / chunkSize;
    if chunks % chunkSize > 0 then (chunks + 1) % USHORT else chunks
  }

  /** What it is for. */
  function Count(size: nat, chunkSize: nat): nat
    requires chunkSize > 0
  {
    var chunks := size / chunkSize;
    if size % chunkSize > 0 then chunks + 1 else chunks
  }

  predicate Holds(n: nat, size: nat, chunkSize: nat) { n * chunkSize >= size }

  /** n chunks hold the file and no fewer do. */
  ghost predicate IsLeast(n: nat, size: nat, chunkSize: nat) {
    Holds(n, size, chunkSize) && forall m: nat :: Holds(m, size, chunkSize) ==> n <= m
  }

  /** n chunks hold the file exactly when n is at least the count: the count is the least such n. */
  lemma CountIsLeast(size: nat, chunkSize: nat, n: nat)
    requires chunkSize > 0
    ensures n * chunkSize >= size <==> n >= Count(size, chunkSize)
  {
    var q, m := size / chunkSize, Count(size, chunkSize);
    assert size == q * chunkSize + size % chunkSize;
    assert (q + 1) * chunkSize == q * chunkSize + chunkSize;
    if n >= m { MulMonotone(m, n, chunkSize); } else { MulMonotone(n + 1, m, chunkSize); assert (n + 1) * chunkSize == n * chunkSize + chunkSize; }
  }

  ghost predicate InChunk(offset: nat, k: nat, chunkSize: nat) {
    k * chunkSize <= offset < (k + 1) * chunkSize
  }

  /** Every byte of the file lies in exactly one chunk, and that chunk is below the count. */
  lemma EveryByteHasItsChunk(size: nat, chunkSize: nat, offset: nat, k: nat)
    requires chunkSize > 0 && offset < size
    ensures InChunk(offset, k, chunkSize) <==> k == offset / chunkSize
    ensures offset / chunkSize < Count(size, chunkSize)
  {
    var q := offset / chunkSize;
    assert offset == q * chunkSize + offset % chunkSize;
    assert (q + 1) * chunkSize == q * chunkSize + chunkSize;
    if k < q { MulMonotone(k + 1, q, chunkSize); }
    if k > q { MulMonotone(q + 1, k, chunkSize); }
    CountIsLeast(size, chunkSize, q);
  }

  /** The count fits the 16 bits of the header exactly up to 65535 full chunks. */
  lemma CountFits(size: nat, chunkSize: nat)
    requires chunkSize > 0
    ensures Count(size, chunkSize) < USHORT <==> size <= 0xFFFF * chunkSize
  {
    CountIsLeast(size, chunkSize, 0xFFFF);
  }

  /** A size beyond 16 bits has more chunks than its low 16 bits can account for. */
  lemma WideFile(size: nat, narrow: nat, chunkSize: nat)
    requires 0 < chunkSize < USHORT && size >= narrow + USHORT
    ensures narrow / chunkSize + 1 < Count(size, chunkSize)
  {
    var q := narrow / chunkSize;
    assert narrow == q * chunkSize + narrow % chunkSize;
    assert (q + 1) * chunkSize == q * chunkSize + chunkSize;
    CountIsLeast(size, chunkSize, q + 1);
  }

  lemma QuotientFits(narrow: nat, chunkSize: nat)
    requires 2 <= chunkSize && narrow < USHORT
    ensures narrow / chunkSize + 1 < USHORT
  {
    var q := narrow / chunkSize;
    assert narrow == q * chunkSize + narrow % chunkSize;
    MulMonotone(2, chunkSize, q);
  }

  lemma AtMostOneMore(size: nat, chunkSize: nat)
    requires chunkSize > 0
    ensures CountAsWritten(size, chunkSize) <= size % USHORT / chunkSize + 1
  {
  }

  lemma NoWrap(q: nat)
    requires q + 1 < USHORT
    ensures (q + 1) % USHORT == q + 1
  {
  }

  lemma SmallFile(size: nat, chunkSize: nat)
    requires chunkSize > 0 && size < USHORT
    ensures CountAsWritten(size, chunkSize)
         == size / chunkSize + if size / chunkSize % chunkSize > 0 then 1 else 0
  {
    assert size % USHORT == size;
    var q := size / chunkSize;
    if chunkSize == 1 {
      assert q % 1 == 0;
    } else {
      QuotientFits(size, chunkSize);
      NoWrap(q);
    }
  }

  /** For a chunk size that fits 16 bits, the text gives the right count exactly when the size does too and
      the remainder of the quotient is zero just when the remainder of the size is. */
  lemma CountAsWrittenIsRight(size: nat, chunkSize: nat)
    requires 0 < chunkSize < USHORT
    ensures CountAsWritten(size, chunkSize) == Count(size, chunkSize) <==>
      size < USHORT && ((size / chunkSize) % chunkSize > 0 <==> size % chunkSize > 0)
  {
    if size >= USHORT {
      WideFile(size, size % USHORT, chunkSize);
      AtMostOneMore(size, chunkSize);
    } else {
      SmallFile(size, chunkSize);
    }
  }

  /** The text gives the least number of chunks that hold the file exactly under the condition above;
      repaired, it always does. */
  method RetrieveNumberOfChunks(repaired: bool, size: nat, chunkSize: nat) returns (n: nat)
    requires chunkSize > 0
    ensures repaired ==> IsLeast(n, size, chunkSize)
    ensures !repaired ==> n == CountAsWritten(size, chunkSize)
    ensures !repaired && chunkSize < USHORT ==>
      (IsLeast(n, size, chunkSize) <==>
        size < USHORT && ((size / chunkSize) % chunkSize > 0 <==> size % chunkSize > 0))
  {
    var retrieveSizeOfFile := if repaired then size else size % USHORT;
    n := retrieveSizeOfFile / chunkSize;
    if (if repaired then retrieveSizeOfFile else n) % chunkSize > 0 {
      n := if repaired then n + 1 else (n + 1) % USHORT;
    }
    CountIsTheLeast(n, size, chunkSize);
    if chunkSize < USHORT { CountAsWrittenIsRight(size, chunkSize); }
  }

  lemma CountIsTheLeast(n: nat, size: nat, chunkSize: nat)
    requires chunkSize > 0
    ensures IsLeast(n, size, chunkSize) <==> n == Count(size, chunkSize)
  {
    var c := Count(size, chunkSize);
    CountIsLeast(size, chunkSize, n);
    CountIsLeast(size, chunkSize, c);
    assert Holds(c, size, chunkSize);
    forall m: nat | Holds(m, size, chunkSize) ensures c <= m { CountIsLeast(size, chunkSize, m); }
  }
}
