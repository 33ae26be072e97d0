/**
 * Chunked object storage over an in-memory backend: the writer that cuts a byte stream into
 * chunk rows and stores the object's metadata last, the info reader, the batched reader that
 * reassembles the chunks in index order, and the deleter that removes every chunk row.
 */
module ChunkedStorage {
  import opened Wrappers
  import opened Chunking
  import opened WriteCallback

  /** What the writer records about a stored object once every chunk is in place. */
  datatype ObjectMetadata = ObjectMetadata(objectSize: nat, chunkSize: nat, chunkCount: nat)

  /** A write aborted at chunk `chunk` because processing it raised `cause`. */
  datatype WriteFailure = ChunkFailure(chunk: nat, cause: Exception)

  datatype ReadFailure = NotFound | ChunkUnavailable(chunk: nat)

  /**
   * The backend: one row of bytes per chunk key, and the metadata of each stored object.
   * The methods are the provider's put and delete operations; reads look at the fields.
   */
  class MemoryProvider {
    var rows: Rows
    var metadata: map<string, ObjectMetadata>

    constructor ()
      ensures rows == map[] && metadata == map[]
    {
      rows := map[];
      metadata := map[];
    }

    method WriteChunk(name: string, index: nat, data: seq<Byte>)
      modifies this
      ensures rows == old(rows)[ChunkKey(name, index) := data]
      ensures metadata == old(metadata)
    {
      rows := rows[ChunkKey(name, index) := data];
    }

    method DeleteChunk(name: string, index: nat)
      modifies this
      ensures rows == old(rows) - {ChunkKey(name, index)}
      ensures metadata == old(metadata)
    {
      rows := rows - {ChunkKey(name, index)};
    }

    method WriteMetadata(name: string, meta: ObjectMetadata)
      modifies this
      ensures metadata == old(metadata)[name := meta]
      ensures rows == old(rows)
    {
      metadata := metadata[name := meta];
    }

    method DeleteMetadata(name: string)
      modifies this
      ensures metadata == old(metadata) - {name}
      ensures rows == old(rows)
    {
      metadata := metadata - {name};
    }
  }

  /** The info reader: the stored metadata of `name`, or NotFound when no complete write of it is stored. */
  function ReadInfo(provider: MemoryProvider, name: string): (r: Result<ObjectMetadata, ReadFailure>)
    reads provider
    ensures r.Ok? <==> name in provider.metadata
    ensures r.Ok? ==> r.value == provider.metadata[name]
    ensures r.Err? ==> r.error == NotFound
  {
    if name in provider.metadata then Ok(provider.metadata[name]) else Err(NotFound)
  }

  /** The callback raises on one of the `count` chunks of the write. */
  predicate WriteFails(callback: CallbackThatFails?, count: nat) {
    callback != null && 0 <= callback.chunkNumToFailOn < count
  }

  /**
   * The chunk loop of the writer. It takes up to `chunkSize` bytes from the stream at a time; for
   * each chunk it calls `onChunk` and then stores the chunk under `name$index`. When `onChunk`
   * raises, it reports the chunk to `onChunkException` and stops without storing that chunk or
   * any later one.
   */
  method WriteChunks(provider: MemoryProvider, name: string, input: seq<Byte>, chunkSize: nat, callback: CallbackThatFails?)
    returns (failure: Option<WriteFailure>)
    requires chunkSize > 0
    modifies provider, callback
    ensures failure.None? <==> !WriteFails(callback, |Split(input, chunkSize)|)
    ensures failure.Some? ==> (callback != null &&
      failure.value == ChunkFailure(callback.chunkNumToFailOn, RuntimeException(FailureMessage(callback.chunkNumToFailOn))))
    ensures failure.Some? ==> failure.value.chunk < |Split(input, chunkSize)|
    ensures failure.Some? ==> provider.rows == PutChunks(old(provider.rows), name, Split(input, chunkSize), failure.value.chunk)
    ensures failure.None? ==> provider.rows == PutChunks(old(provider.rows), name, Split(input, chunkSize), |Split(input, chunkSize)|)
    ensures provider.metadata == old(provider.metadata)
    ensures callback != null ==> callback.success == old(callback.success)
    ensures callback != null ==> callback.chunkException == (old(callback.chunkException) || failure.Some?)
    ensures callback != null ==> callback.failedChunk == if failure.Some? then failure.value.chunk else old(callback.failedChunk)
  {
    ghost var chunks := Split(input, chunkSize);
    var rest := input;
    var index: nat := 0;
    while rest != []
      invariant index <= |chunks|
      invariant chunks == chunks[..index] + Split(rest, chunkSize)
      invariant provider.rows == PutChunks(old(provider.rows), name, chunks, index)
      invariant provider.metadata == old(provider.metadata)
      invariant !WriteFails(callback, index)
      invariant callback != null ==>
        (callback.success, callback.chunkException, callback.failedChunk)
          == old((callback.success, callback.chunkException, callback.failedChunk))
      decreases |rest|
    {
      var size := Min(chunkSize, |rest|);
      var data := rest[..size];
      SplitStep(chunks, index, rest, chunkSize);
      if callback != null {
        var fault := callback.OnChunk(index, size);
        if fault.Some? {
          callback.OnChunkException(index, fault.value);
          return Some(ChunkFailure(index, fault.value));
        }
      }
      provider.WriteChunk(name, index, data);
      index, rest := index + 1, rest[size..];
    }
    assert chunks[..index] == chunks;
    return None;
  }

  /**
   * The writer: the chunk loop, then, when every chunk is stored, the metadata and `onSuccess`.
   * When a chunk fails it calls `onFailure`, stores no metadata and fails. A null callback is the
   * writer's default callback, which does nothing.
   */
  method Write(provider: MemoryProvider, name: string, input: seq<Byte>, chunkSize: nat, callback: CallbackThatFails?)
    returns (r: Result<ObjectMetadata, WriteFailure>)
    requires chunkSize > 0
    modifies provider, callback
    ensures r.Ok? <==> !WriteFails(callback, ChunkCount(|input|, chunkSize))
    // success: every chunk stored under its key, then the metadata, which makes the object visible
    ensures r.Ok? ==> r.value == ObjectMetadata(|input|, chunkSize, ChunkCount(|input|, chunkSize))
    ensures r.Ok? ==>
      provider.rows == PutChunks(old(provider.rows), name, Split(input, chunkSize), |Split(input, chunkSize)|)
    ensures r.Ok? ==> provider.metadata == old(provider.metadata)[name := r.value]
    ensures r.Ok? ==> ReadInfo(provider, name) == Ok(r.value)
    // failure: the failing chunk is reported, earlier chunks stay, nothing else is stored
    ensures r.Err? ==> (callback != null &&
      r.error == ChunkFailure(callback.chunkNumToFailOn, RuntimeException(FailureMessage(callback.chunkNumToFailOn))))
    ensures r.Err? ==> r.error.chunk < |Split(input, chunkSize)|
    ensures r.Err? ==> provider.rows == PutChunks(old(provider.rows), name, Split(input, chunkSize), r.error.chunk)
    ensures r.Err? ==> provider.metadata == old(provider.metadata)
    ensures r.Err? ==> ReadInfo(provider, name) == old(ReadInfo(provider, name))
    // what the callback has seen
    ensures callback != null ==> callback.success == (old(callback.success) || r.Ok?)
    ensures callback != null ==> callback.chunkException == (old(callback.chunkException) || r.Err?)
    ensures callback != null ==> callback.failedChunk == if r.Err? then r.error.chunk else old(callback.failedChunk)
  {
    SplitCount(input, chunkSize);
    var failure := WriteChunks(provider, name, input, chunkSize, callback);
    if failure.Some? {
      callback.OnFailure(failure.value.cause);
      return Err(failure.value);
    }
    var meta := ObjectMetadata(|input|, chunkSize, ChunkCount(|input|, chunkSize));
    provider.WriteMetadata(name, meta);
    if callback != null {
      callback.OnSuccess();
    }
    return Ok(meta);
  }

  /**
   * The reader. It fetches the chunks of `name` in consecutive batches of `batchSize` indices;
   * within a batch the fetches complete in an arbitrary order (the `:|` choice) into a buffer
   * keyed by index, and the buffer is appended to the output in index order before the next
   * batch starts. It fails with NotFound when no metadata is stored, and with ChunkUnavailable
   * when a chunk row is missing.
   */
  method Read(provider: MemoryProvider, name: string, batchSize: nat)
    returns (r: Result<(ObjectMetadata, seq<Byte>), ReadFailure>)
    requires batchSize > 0
    ensures r == Err(NotFound) <==> name !in provider.metadata
    ensures r.Ok? <==> name in provider.metadata && Assemble(provider.rows, name, provider.metadata[name].chunkCount).Some?
    ensures r.Ok? ==> r.value.0 == provider.metadata[name]
    ensures r.Ok? ==> Assemble(provider.rows, name, r.value.0.chunkCount) == Some(r.value.1)
    ensures r.Err? && r.error.ChunkUnavailable? ==>
      name in provider.metadata && r.error.chunk < provider.metadata[name].chunkCount &&
      ChunkKey(name, r.error.chunk) !in provider.rows
  {
    if name !in provider.metadata {
      return Err(NotFound);
    }
    var meta := provider.metadata[name];
    var output: seq<Byte> := [];
    var start: nat := 0;
    while start < meta.chunkCount
      invariant start <= meta.chunkCount
      invariant Assemble(provider.rows, name, start) == Some(output)
      decreases meta.chunkCount - start
    {
      var end := Min(start + batchSize, meta.chunkCount);
      var buffer: map<nat, seq<Byte>> := map[];
      var pending := Range(start, end);
      while pending != {}
        invariant forall j :: j in pending ==> start <= j < end
        invariant forall j: nat :: start <= j < end ==> (j in buffer <==> j !in pending)
        invariant forall j :: j in buffer ==> ChunkKey(name, j) in provider.rows && buffer[j] == provider.rows[ChunkKey(name, j)]
        decreases pending
      {
        var j :| j in pending;
        var key := ChunkKey(name, j);
        if key !in provider.rows {
          return Err(ChunkUnavailable(j));
        }
        buffer := buffer[j := provider.rows[key]];
        pending := pending - {j};
      }
      var k := start;
      while k < end
        invariant start <= k <= end
        invariant Assemble(provider.rows, name, k) == Some(output)
      {
        output := output + buffer[k];
        k := k + 1;
      }
      start := end;
    }
    return Ok((meta, output));
  }

  /**
   * The deleter: loads the metadata of `name` (NotFound when absent), removes the chunk rows
   * `name$0 .. name$(chunkCount - 1)` one by one, then removes the metadata.
   */
  method Delete(provider: MemoryProvider, name: string) returns (r: Result<(), ReadFailure>)
    modifies provider
    ensures name !in old(provider.metadata) ==>
      (r == Err(NotFound) && provider.rows == old(provider.rows) && provider.metadata == old(provider.metadata))
    ensures name in old(provider.metadata) ==> (r.Ok? &&
      provider.rows == old(provider.rows) - ChunkKeys(name, old(provider.metadata)[name].chunkCount) &&
      provider.metadata == old(provider.metadata) - {name})
  {
    if name !in provider.metadata {
      return Err(NotFound);
    }
    var count := provider.metadata[name].chunkCount;
    var i := 0;
    while i < count
      invariant i <= count
      invariant provider.rows == old(provider.rows) - ChunkKeys(name, i)
      invariant provider.metadata == old(provider.metadata)
    {
      provider.DeleteChunk(name, i);
      i := i + 1;
    }
    provider.DeleteMetadata(name);
    return Ok(());
  }
}
