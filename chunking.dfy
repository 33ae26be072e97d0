/**
 * The arithmetic of chunked object storage: how a byte stream is cut into chunks of at most
 * `chunkSize` bytes, under which row key each chunk lives, and how the rows of an object are
 * put back together in index order.
 */
module Chunking {
  import opened Wrappers
  import opened Strings

  newtype Byte = b: int | 0 <= b < 256

  /** A backend row holds the raw bytes of one chunk. */
  type Rows = map<string, seq<Byte>>

  function Min(a: nat, b: nat): nat {
    if a < b then a else b
  }

  /** The indices `lo .. hi - 1`. */
  function Range(lo: nat, hi: nat): (s: set<nat>)
    ensures forall j :: j in s <==> lo <= j < hi
    decreases hi - lo
  {
    if lo >= hi then {} else {lo} + Range(lo + 1, hi)
  }

  /** ceil(objectSize / chunkSize): the number of chunks an object of `objectSize` bytes occupies. */
  function ChunkCount(objectSize: nat, chunkSize: nat): nat
    requires chunkSize > 0
  {
    (objectSize + chunkSize - 1) / chunkSize
  }

  /** The chunks the writer produces: each read from the stream takes up to `chunkSize` bytes. */
  function Split(data: seq<Byte>, chunkSize: nat): seq<seq<Byte>>
    requires chunkSize > 0
    decreases |data|
  {
    if data == [] then []
    else
      var n := Min(chunkSize, |data|);
      [data[..n]] + Split(data[n..], chunkSize)
  }

  /** The bytes of a sequence of chunks, in index order. */
  function Concat(chunks: seq<seq<Byte>>): seq<Byte>
    decreases |chunks|
  {
    if chunks == [] then [] else Concat(chunks[..|chunks| - 1]) + chunks[|chunks| - 1]
  }

  /** Row key of chunk `index` of object `name`: the name, a '$', and the index in decimal. */
  function ChunkKey(name: string, index: nat): string {
    name + "$" + NatToString(index)
  }

  /** The row keys of chunks `0 .. count - 1` of object `name`. */
  function ChunkKeys(name: string, count: nat): (keys: set<string>)
    ensures forall i :: 0 <= i < count ==> ChunkKey(name, i) in keys
    ensures forall k :: k in keys ==> exists i :: 0 <= i < count && k == ChunkKey(name, i)
    decreases count
  {
    if count == 0 then {} else ChunkKeys(name, count - 1) + {ChunkKey(name, count - 1)}
  }

  /** The backend rows after chunks `0 .. n - 1` of `chunks` are stored, one put per chunk, in index order. */
  function PutChunks(rows: Rows, name: string, chunks: seq<seq<Byte>>, n: nat): Rows
    requires n <= |chunks|
    decreases n
  {
    if n == 0 then rows else PutChunks(rows, name, chunks, n - 1)[ChunkKey(name, n - 1) := chunks[n - 1]]
  }

  /**
   * After the puts, chunk `i` of the object lives under `name$i` and holds `chunks[i]`, no later
   * put overwrote an earlier one, and every other row is as it was.
   */
  lemma PutChunksContents(rows: Rows, name: string, chunks: seq<seq<Byte>>, n: nat)
    requires n <= |chunks|
    ensures PutChunks(rows, name, chunks, n).Keys == rows.Keys + ChunkKeys(name, n)
    ensures forall i :: 0 <= i < n ==> PutChunks(rows, name, chunks, n)[ChunkKey(name, i)] == chunks[i]
    ensures forall k :: k in rows && k !in ChunkKeys(name, n) ==> PutChunks(rows, name, chunks, n)[k] == rows[k]
  {
    PutChunksKeys(rows, name, chunks, n);
    PutChunksStored(rows, name, chunks, n);
    PutChunksOthers(rows, name, chunks, n);
  }

  lemma {:induction false} PutChunksKeys(rows: Rows, name: string, chunks: seq<seq<Byte>>, n: nat)
    requires n <= |chunks|
    ensures PutChunks(rows, name, chunks, n).Keys == rows.Keys + ChunkKeys(name, n)
    decreases n
  {
    if n > 0 {
      var key := ChunkKey(name, n - 1);
      var prev := PutChunks(rows, name, chunks, n - 1);
      PutChunksKeys(rows, name, chunks, n - 1);
      KeysStep(prev, key, chunks[n - 1], rows.Keys, ChunkKeys(name, n - 1));
    }
  }

  /** Storing a value under a key adds exactly that key to the keys `a + b`. */
  lemma KeysStep<K, V>(m: map<K, V>, k: K, v: V, a: set<K>, b: set<K>)
    requires m.Keys == a + b
    ensures m[k := v].Keys == a + (b + {k})
  {
  }

  lemma {:induction false} PutChunksStored(rows: Rows, name: string, chunks: seq<seq<Byte>>, n: nat)
    requires n <= |chunks|
    ensures forall i :: 0 <= i < n ==>
      ChunkKey(name, i) in PutChunks(rows, name, chunks, n) && PutChunks(rows, name, chunks, n)[ChunkKey(name, i)] == chunks[i]
    decreases n
  {
    if n > 0 {
      PutChunksStored(rows, name, chunks, n - 1);
      forall i | 0 <= i < n - 1
        ensures ChunkKey(name, i) != ChunkKey(name, n - 1)
      {
        ChunkKeyInjective(name, i, name, n - 1);
      }
    }
  }

  lemma {:induction false} PutChunksOthers(rows: Rows, name: string, chunks: seq<seq<Byte>>, n: nat)
    requires n <= |chunks|
    ensures forall k :: k in rows && k !in ChunkKeys(name, n) ==>
      k in PutChunks(rows, name, chunks, n) && PutChunks(rows, name, chunks, n)[k] == rows[k]
    decreases n
  {
    if n > 0 {
      PutChunksOthers(rows, name, chunks, n - 1);
    }
  }

  /**
   * The object the rows hold for `name` with `count` chunks: the chunk rows concatenated in index
   * order, or None when some chunk row is missing.
   */
  function Assemble(rows: Rows, name: string, count: nat): (r: Option<seq<Byte>>)
    ensures r.Some? <==> forall i :: 0 <= i < count ==> ChunkKey(name, i) in rows
    decreases count
  {
    if count == 0 then Some([])
    else
      match Assemble(rows, name, count - 1)
      case None => None
      case Some(prefix) =>
        var key := ChunkKey(name, count - 1);
        if key in rows then Some(prefix + rows[key]) else None
  }

  /** Chunk row keys are unambiguous: a key names one object and one index. */
  lemma ChunkKeyInjective(name1: string, i1: nat, name2: string, i2: nat)
    ensures ChunkKey(name1, i1) == ChunkKey(name2, i2) <==> name1 == name2 && i1 == i2
  {
    if ChunkKey(name1, i1) == ChunkKey(name2, i2) {
      var d1, d2 := NatToString(i1), NatToString(i2);
      assert '$' !in d1 && '$' !in d2;
      assert ChunkKey(name1, i1) == name1 + ['$'] + d1;
      assert ChunkKey(name2, i2) == name2 + ['$'] + d2;
      SplitAtLast(name1, d1, name2, d2, '$');
      NatToStringInjective(i1, i2);
    }
  }

  lemma {:induction false} ConcatPrepend(chunk: seq<Byte>, chunks: seq<seq<Byte>>)
    ensures Concat([chunk] + chunks) == chunk + Concat(chunks)
    decreases |chunks|
  {
    if chunks != [] {
      var all := [chunk] + chunks;
      assert all[..|all| - 1] == [chunk] + chunks[..|chunks| - 1];
      ConcatPrepend(chunk, chunks[..|chunks| - 1]);
    }
  }

  /** Round trip of the chunking: the chunks, concatenated in order, are the original stream. */
  lemma {:induction false} SplitConcat(data: seq<Byte>, chunkSize: nat)
    requires chunkSize > 0
    ensures Concat(Split(data, chunkSize)) == data
    decreases |data|
  {
    if data != [] {
      var n := Min(chunkSize, |data|);
      SplitConcat(data[n..], chunkSize);
      ConcatPrepend(data[..n], Split(data[n..], chunkSize));
      assert data == data[..n] + data[n..];
    }
  }

  /** One step of the writer's loop: the next chunk is the next `chunkSize` bytes of what is left. */
  lemma SplitStep(chunks: seq<seq<Byte>>, index: nat, rest: seq<Byte>, chunkSize: nat)
    requires chunkSize > 0 && rest != []
    requires index <= |chunks| && chunks == chunks[..index] + Split(rest, chunkSize)
    ensures index < |chunks|
    ensures chunks[index] == rest[..Min(chunkSize, |rest|)]
    ensures chunks == chunks[..index + 1] + Split(rest[Min(chunkSize, |rest|)..], chunkSize)
  {
    var n := Min(chunkSize, |rest|);
    assert Split(rest, chunkSize) == [rest[..n]] + Split(rest[n..], chunkSize);
    SeqStep(chunks, index, rest[..n], Split(rest[n..], chunkSize));
  }

  /** A sequence that continues after position `i` with `x` and then `tail`. */
  lemma SeqStep<T>(s: seq<T>, i: nat, x: T, tail: seq<T>)
    requires i <= |s| && s == s[..i] + ([x] + tail)
    ensures i < |s| && s[i] == x
    ensures s == s[..i + 1] + tail
  {
    assert s[..i + 1] == s[..i] + [x];
  }

  /** Every chunk is non-empty and at most `chunkSize` long; all but the last are exactly `chunkSize`. */
  lemma {:induction false} SplitSizes(data: seq<Byte>, chunkSize: nat)
    requires chunkSize > 0
    ensures forall i :: 0 <= i < |Split(data, chunkSize)| ==> 0 < |Split(data, chunkSize)[i]| <= chunkSize
    ensures forall i :: 0 <= i < |Split(data, chunkSize)| - 1 ==> |Split(data, chunkSize)[i]| == chunkSize
    decreases |data|
  {
    if data != [] {
      var n := Min(chunkSize, |data|);
      SplitSizes(data[n..], chunkSize);
      var chunks := Split(data, chunkSize);
      assert chunks == [data[..n]] + Split(data[n..], chunkSize);
      assert n < chunkSize ==> data[n..] == [];
    }
  }

  lemma {:induction false} MulAtLeast(c: int, k: int)
    requires c > 0
    ensures k >= 1 ==> c * k >= c
    ensures k <= -1 ==> c * k <= -c
    decreases if k < 0 then -k else k
  {
    if k > 1 {
      MulAtLeast(c, k - 1);
      assert c * k == c * (k - 1) + c;
    } else if k < -1 {
      MulAtLeast(c, k + 1);
      assert c * k == c * (k + 1) - c;
    }
  }

  lemma DivStep(x: nat, c: nat)
    requires c > 0
    ensures (x + c) / c == x / c + 1
  {
    var q, r := x / c, x % c;
    var q2, r2 := (x + c) / c, (x + c) % c;
    assert c * (q2 - q - 1) == r - r2;
    MulAtLeast(c, q2 - q - 1);
  }

  /** The number of chunks is ceil(size / chunkSize), and 0 for an empty stream. */
  lemma {:induction false} SplitCount(data: seq<Byte>, chunkSize: nat)
    requires chunkSize > 0
    ensures |Split(data, chunkSize)| == ChunkCount(|data|, chunkSize)
    decreases |data|
  {
    if data == [] {
      DivSmall(chunkSize - 1, chunkSize);
    } else {
      var n := Min(chunkSize, |data|);
      SplitCount(data[n..], chunkSize);
      if n == chunkSize {
        DivStep(|data| - chunkSize + chunkSize - 1, chunkSize);
      } else {
        DivSmall(|data| - 1, chunkSize);
        DivStep(|data| - 1, chunkSize);
      }
    }
  }

  lemma DivSmall(x: nat, c: nat)
    requires x < c
    ensures x / c == 0
  {
  }

  /** Rows that hold `chunks[i]` under chunk key `i` for every `i < count` assemble to their concatenation. */
  lemma {:induction false} AssembleStored(rows: Rows, name: string, chunks: seq<seq<Byte>>, count: nat)
    requires count <= |chunks|
    requires forall i :: 0 <= i < count ==> ChunkKey(name, i) in rows && rows[ChunkKey(name, i)] == chunks[i]
    ensures Assemble(rows, name, count) == Some(Concat(chunks[..count]))
    decreases count
  {
    if count > 0 {
      AssembleStored(rows, name, chunks, count - 1);
      assert chunks[..count][..count - 1] == chunks[..count - 1];
    }
  }

  /**
   * Round trip of a complete write: whatever the rows held before, after every chunk of `data` is
   * put, the object's rows assemble to exactly `data`.
   */
  lemma WriteThenAssemble(rows: Rows, name: string, data: seq<Byte>, chunkSize: nat)
    requires chunkSize > 0
    ensures var chunks := Split(data, chunkSize);
            Assemble(PutChunks(rows, name, chunks, |chunks|), name, |chunks|) == Some(data)
  {
    var chunks := Split(data, chunkSize);
    PutChunksContents(rows, name, chunks, |chunks|);
    AssembleStored(PutChunks(rows, name, chunks, |chunks|), name, chunks, |chunks|);
    assert chunks[..|chunks|] == chunks;
    SplitConcat(data, chunkSize);
  }

  /** Rows of one object are disjoint from the rows of every other object. */
  lemma ChunkKeysDisjoint(name: string, count: nat, other: string, index: nat)
    requires other != name
    ensures ChunkKey(other, index) !in ChunkKeys(name, count)
  {
    forall i | 0 <= i < count
      ensures ChunkKey(name, i) != ChunkKey(other, index)
    {
      ChunkKeyInjective(name, i, other, index);
    }
  }
}
