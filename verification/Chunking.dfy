/** Cutting a file into fixed-size pieces and putting it back together. The three
    upload clients share this arithmetic. */
module Chunking {

  newtype Byte = x: int | 0 <= x < 256

  type Bytes = seq<Byte>

  function Min(a: int, b: int): int {
    if a < b then a else b
  }

  function Max(a: int, b: int): int {
    if a > b then a else b
  }

  /** The ceiling division every client writes, never fewer than one chunk. */
  function TotalChunks(size: nat, chunkSize: nat): (n: nat)
    requires chunkSize > 0
    ensures n >= 1
    ensures size <= n * chunkSize
    ensures n > 1 ==> (n - 1) * chunkSize < size
  {
    Max(1, (size + chunkSize - 1) / chunkSize)
  }

  /** Chunk i of the data: what read(chunkSize) yields the i-th time. */
  function ChunkAt(data: Bytes, chunkSize: nat, i: nat): (c: Bytes)
    requires chunkSize > 0
    ensures |c| <= chunkSize
  {
    data[Min(i * chunkSize, |data|)..Min((i + 1) * chunkSize, |data|)]
  }

  function Concat(pieces: seq<Bytes>): Bytes {
    if |pieces| == 0 then [] else Concat(pieces[..|pieces| - 1]) + pieces[|pieces| - 1]
  }

  function Chunks(data: Bytes, chunkSize: nat, n: nat): (cs: seq<Bytes>)
    requires chunkSize > 0
    ensures |cs| == n
  {
    seq(n, i requires 0 <= i < n => ChunkAt(data, chunkSize, i))
  }

  lemma TakeGrows(data: Bytes, a: nat, b: nat)
    requires a <= b <= |data|
    ensures data[..a] + data[a..b] == data[..b]
  {
  }

  lemma NextBoundary(chunkSize: nat, n: nat)
    requires n > 0
    ensures n * chunkSize == (n - 1) * chunkSize + chunkSize
    ensures 0 <= (n - 1) * chunkSize
  {
  }

  /** The first n chunks are the first n * chunkSize bytes. */
  lemma {:induction false} ChunksTake(data: Bytes, chunkSize: nat, n: nat)
    requires chunkSize > 0
    ensures Concat(Chunks(data, chunkSize, n)) == data[..Min(n * chunkSize, |data|)]
  {
    if n == 0 {
      assert data[..0] == [];
    } else {
      ChunksTake(data, chunkSize, n - 1);
      NextBoundary(chunkSize, n);
      var cs := Chunks(data, chunkSize, n);
      assert cs[..n - 1] == Chunks(data, chunkSize, n - 1);
      var a, b := Min((n - 1) * chunkSize, |data|), Min(n * chunkSize, |data|);
      TakeGrows(data, a, b);
      assert cs[n - 1] == data[a..b];
    }
  }

  /** Cut by the ceiling count, the chunks are the whole file. */
  lemma ChunksReassemble(data: Bytes, chunkSize: nat)
    requires chunkSize > 0
    ensures Concat(Chunks(data, chunkSize, TotalChunks(|data|, chunkSize))) == data
  {
    var n := TotalChunks(|data|, chunkSize);
    ChunksTake(data, chunkSize, n);
    assert data[..|data|] == data;
  }

  lemma MultiplesGrow(m: nat, n: nat, k: nat)
    requires m <= n
    ensures m * k <= n * k
  {
  }
}
