/**
 * The geometry of a transfer: how a file splits into chunks, and which answers
 * of a server the client accepts before it allocates anything from them.
 */
module Chunks {
  import opened Options

  type U32 = i: int | 0 <= i < 0x1_0000_0000
  type Bytes = seq<bv8>

  const DEFAULT_CHUNK_SIZE: U32 := 32 * 1024
  const MIN_CHUNK_SIZE: U32 := 4 * 1024
  const MAX_CHUNK_SIZE: U32 := 256 * 1024
  const MAX_TRANSFER_SIZE: nat := 16 * 1024 * 1024 * 1024
  const MAX_TOTAL_CHUNKS: U32 := 524_280
  const TARGET_TOTAL_CHUNKS: U32 := 65_536

  // Quotient and remainder by repeated subtraction; QuotRem ties them to the operators.

  function Quot(a: nat, b: nat): nat
    requires b > 0
  {
    if a < b then 0 else 1 + Quot(a - b, b)
  }

  function Rem(a: nat, b: nat): nat
    requires b > 0
  {
    if a < b then a else Rem(a - b, b)
  }

  function TotalChunks(size: nat, chunkSize: nat): U32 {
    if size == 0 || chunkSize == 0 then 0
    else
      var n := Quot(size + chunkSize - 1, chunkSize);
      if n < 0xFFFF_FFFF then n else 0xFFFF_FFFF
  }

  function ChunkLen(size: nat, chunkSize: nat, index: nat, total: nat): nat
    requires index < total ==> chunkSize > 0
  {
    if total == 0 || index >= total then 0
    else if index == total - 1 then
      var rem := Rem(size, chunkSize);
      if rem == 0 then chunkSize else rem
    else chunkSize
  }

  function BitmapBytes(total: nat): nat {
    (total + 7) / 8
  }

  /** The default chunk size, doubled until the count is modest or the size is the
      largest allowed. */
  function ChunkSizeFor(size: nat): U32 {
    if TotalChunks(size, DEFAULT_CHUNK_SIZE) <= TARGET_TOTAL_CHUNKS then DEFAULT_CHUNK_SIZE
    else if TotalChunks(size, 2 * DEFAULT_CHUNK_SIZE) <= TARGET_TOTAL_CHUNKS then 2 * DEFAULT_CHUNK_SIZE
    else if TotalChunks(size, 4 * DEFAULT_CHUNK_SIZE) <= TARGET_TOTAL_CHUNKS then 4 * DEFAULT_CHUNK_SIZE
    else MAX_CHUNK_SIZE
  }

  method ChooseChunkSize(size: nat) returns (chunk: U32)
    ensures chunk == ChunkSizeFor(size)
    ensures size <= MAX_TRANSFER_SIZE ==> TotalChunks(size, chunk) <= TARGET_TOTAL_CHUNKS
  {
    chunk := DEFAULT_CHUNK_SIZE;
    while chunk < MAX_CHUNK_SIZE && TotalChunks(size, chunk) > TARGET_TOTAL_CHUNKS
      invariant chunk in {32 * 1024, 64 * 1024, 128 * 1024, 256 * 1024}
      invariant chunk > 32 * 1024 ==> TotalChunks(size, 32 * 1024) > TARGET_TOTAL_CHUNKS
      invariant chunk > 64 * 1024 ==> TotalChunks(size, 64 * 1024) > TARGET_TOTAL_CHUNKS
      invariant chunk > 128 * 1024 ==> TotalChunks(size, 128 * 1024) > TARGET_TOTAL_CHUNKS
      decreases MAX_CHUNK_SIZE - chunk
    {
      chunk := chunk * 2;
    }
    QuotRem(size + 256 * 1024 - 1, 256 * 1024);
  }

  datatype GeometryError = BadChunkSize | ChangedChunkSize | SmallerChunkSize | Oversized | WrongCount | TooMany | LongBitmap

  /** The checks on an accept, in order; None when it passes. */
  function GeometryProblem(upload: bool, requested: U32, chunkSize: U32, total: U32, size: nat, bitmapLen: nat): Option<GeometryError> {
    if !(MIN_CHUNK_SIZE <= chunkSize <= MAX_CHUNK_SIZE) then Some(BadChunkSize)
    else if upload && chunkSize != requested then Some(ChangedChunkSize)
    else if !upload && chunkSize < requested then Some(SmallerChunkSize)
    else if size > MAX_TRANSFER_SIZE then Some(Oversized)
    else if total != TotalChunks(size, chunkSize) then Some(WrongCount)
    else if total > MAX_TOTAL_CHUNKS then Some(TooMany)
    else if bitmapLen > BitmapBytes(total) then Some(LongBitmap)
    else None
  }

  /** What an accepted geometry amounts to. */
  predicate Geometry(size: nat, chunkSize: nat, total: nat) {
    && MIN_CHUNK_SIZE <= chunkSize <= MAX_CHUNK_SIZE
    && size <= MAX_TRANSFER_SIZE
    && total == TotalChunks(size, chunkSize) <= MAX_TOTAL_CHUNKS
  }

  lemma AcceptedGeometry(upload: bool, requested: U32, chunkSize: U32, total: U32, size: nat, bitmapLen: nat)
    requires GeometryProblem(upload, requested, chunkSize, total, size, bitmapLen) == None
    ensures Geometry(size, chunkSize, total)
  {
  }

  /** An accept passes exactly if all of this holds. */
  lemma PassesIff(upload: bool, requested: U32, chunkSize: U32, total: U32, size: nat, bitmapLen: nat)
    ensures GeometryProblem(upload, requested, chunkSize, total, size, bitmapLen) == None <==>
              && 4096 <= chunkSize <= 262_144 && (upload ==> chunkSize == requested) && (!upload ==> chunkSize >= requested)
              && size <= 17_179_869_184 && total == TotalChunks(size, chunkSize) <= 524_280 && bitmapLen <= (total + 7) / 8
  {
    hide TotalChunks;
  }

  /** The smallest of four sizes with which the file has at most 65,536 chunks; else the largest. */
  lemma ChunkSizeIsSmallest(size: nat)
    ensures var c := ChunkSizeFor(size);
            && c in {32_768, 65_536, 131_072, 262_144}
            && (c < 262_144 ==> TotalChunks(size, c) <= 65_536)
            && forall b :: b in {32_768, 65_536, 131_072} && b < c ==> TotalChunks(size, b) > 65_536
  {
    hide TotalChunks;
  }

  // ---- tiling --------------------------------------------------------------------

  lemma {:induction false} QuotRem(a: nat, b: nat)
    requires b > 0
    ensures a == Quot(a, b) * b + Rem(a, b) && Rem(a, b) < b
    ensures Quot(a, b) == a / b && Rem(a, b) == a % b
    decreases a
  {
    if a >= b {
      QuotRem(a - b, b);
      assert (Quot(a - b, b) + 1) * b == Quot(a - b, b) * b + b;
    }
    DivModUnique(a, b, Quot(a, b), Rem(a, b));
  }

  lemma DivModUnique(a: nat, b: nat, q: nat, r: nat)
    requires b > 0 && a == q * b + r && r < b
    ensures a % b == r && a / b == q
  {
    assert a == (a / b) * b + a % b && a % b < b;
    var d := a / b - q;
    assert d * b == r - a % b by {
      assert (a / b) * b - q * b == d * b;
    }
    MulSign(d, b);
  }

  lemma QuotUnique(a: nat, b: nat, q: nat, r: nat)
    requires b > 0 && a == q * b + r && r < b
    ensures Rem(a, b) == r && Quot(a, b) == q
  {
    QuotRem(a, b);
    DivModUnique(a, b, q, r);
  }

  lemma ChunkBounds(size: nat, chunkSize: nat, total: nat)
    requires Geometry(size, chunkSize, total) && size > 0
    ensures total > 0 && (total - 1) * chunkSize < size <= total * chunkSize
  {
    hide Quot, Rem;
    var a := size + chunkSize - 1;
    var n := Quot(a, chunkSize);
    QuotRem(a, chunkSize);
    assert size <= n * chunkSize < size + chunkSize;
    MulMonotone(1, chunkSize, n);
    assert n == total;
    assert (n - 1) * chunkSize == n * chunkSize - chunkSize;
  }

  lemma LastRemainder(size: nat, chunkSize: nat, q: nat)
    requires chunkSize > 0 && q * chunkSize < size <= q * chunkSize + chunkSize
    ensures Rem(size, chunkSize) == if size == q * chunkSize + chunkSize then 0 else size - q * chunkSize
  {
    hide Quot, Rem;
    var r := size - q * chunkSize;
    if r == chunkSize {
      assert size == (q + 1) * chunkSize;
      QuotUnique(size, chunkSize, q + 1, 0);
    } else {
      QuotUnique(size, chunkSize, q, r);
    }
  }

  lemma MulSign(d: int, b: int)
    requires b >= 0
    ensures d >= 1 ==> d * b >= b
    ensures d <= -1 ==> d * b <= 0 - b
  {
  }

  /** Chunk i is the range [i * chunkSize, i * chunkSize + len): in bounds, ending
      where the next begins, and the last one ending at size. */
  lemma ChunkRange(size: nat, chunkSize: nat, total: nat, i: nat)
    requires Geometry(size, chunkSize, total) && i < total
    ensures ChunkLen(size, chunkSize, i, total) > 0
    ensures i * chunkSize + ChunkLen(size, chunkSize, i, total) == if i == total - 1 then size else (i + 1) * chunkSize
    ensures i * chunkSize + ChunkLen(size, chunkSize, i, total) <= size
    ensures ChunkLen(size, chunkSize, i, total) <= chunkSize
  {
    assert size > 0;
    ChunkBounds(size, chunkSize, total);
    assert (i + 1) * chunkSize == i * chunkSize + chunkSize;
    if i == total - 1 {
      LastRemainder(size, chunkSize, i);
    } else {
      MulMonotone(i + 1, total - 1, chunkSize);
    }
  }

  lemma MulMonotone(a: nat, b: nat, c: nat)
    requires a <= b
    ensures a * c <= b * c
  {
  }

  predicate InChunk(size: nat, chunkSize: nat, total: nat, i: nat, pos: nat)
    requires chunkSize > 0
  {
    i < total && i * chunkSize <= pos < i * chunkSize + ChunkLen(size, chunkSize, i, total)
  }

  function Cell(pos: nat, chunkSize: nat): nat
    requires chunkSize > 0
  {
    Quot(pos, chunkSize)
  }

  lemma CellRange(pos: nat, c: nat)
    requires c > 0
    ensures Cell(pos, c) * c <= pos < Cell(pos, c) * c + c
  {
    QuotRem(pos, c);
  }

  /** Every byte position lies in exactly one chunk. */
  lemma ChunksTile(size: nat, chunkSize: nat, total: nat, pos: nat, j: nat)
    requires Geometry(size, chunkSize, total) && pos < size
    ensures InChunk(size, chunkSize, total, j, pos) <==> j == Cell(pos, chunkSize)
  {
    hide TotalChunks, ChunkLen, Cell;
    var i := Cell(pos, chunkSize);
    CellRange(pos, chunkSize);
    ChunkBounds(size, chunkSize, total);
    IndexBelow(i, total, chunkSize, pos);
    ChunkRange(size, chunkSize, total, i);
    NextCell(i, chunkSize);
    if j < total {
      ChunkRange(size, chunkSize, total, j);
      SameCell(i, j, chunkSize, pos);
    }
  }

  lemma NextCell(i: nat, c: nat)
    ensures (i + 1) * c == i * c + c
  {
  }

  lemma IndexBelow(i: nat, total: nat, c: nat, pos: nat)
    requires i * c <= pos < total * c
    ensures i < total
  {
    if i >= total {
      MulMonotone(total, i, c);
    }
  }

  lemma SameCell(i: nat, j: nat, c: nat, pos: nat)
    requires i * c <= pos < i * c + c
    ensures j * c <= pos < j * c + c ==> i == j
  {
    MulSign(i - j, c);
    assert (i - j) * c == i * c - j * c;
  }
}
