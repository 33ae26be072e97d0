/**
 * The write callback the chunked-object test hands to the writer: it raises on one chosen chunk
 * and records what the writer reports back to it.
 */
module WriteCallback {
  import opened Wrappers
  import opened Strings

  /** The exception a callback raises to abort a write. */
  datatype Exception = RuntimeException(message: string)

  function FailureMessage(chunk: int): string {
    "Failing for chunk: " + IntToString(chunk)
  }

  class CallbackThatFails {
    const chunkNumToFailOn: int
    var success: bool
    var chunkException: bool
    var failedChunk: int

    constructor (chunk: int)
      ensures chunkNumToFailOn == chunk
      ensures !success && !chunkException && failedChunk == -1
    {
      chunkNumToFailOn := chunk;
      success := false;
      chunkException := false;
      failedChunk := -1;
    }

    /** Called once, after the metadata of a successful write is stored. */
    method OnSuccess()
      modifies this
      ensures success
      ensures chunkException == old(chunkException) && failedChunk == old(failedChunk)
    {
      success := true;
    }

    /** Called once when a write fails; this callback ignores it. */
    method OnFailure(exception: Exception)
      ensures (success, chunkException, failedChunk) == old((success, chunkException, failedChunk))
    {
    }

    /** Called with the index of the chunk whose processing raised `exception`. */
    method OnChunkException(chunk: int, exception: Exception)
      modifies this
      ensures chunkException && failedChunk == chunk
      ensures success == old(success)
    {
      chunkException := true;
      failedChunk := chunk;
    }

    /** Called before chunk `chunk` is stored; raises exactly for the chosen chunk, and does nothing otherwise. */
    method OnChunk(chunk: int, size: int) returns (fault: Option<Exception>)
      ensures fault.Some? <==> chunk == chunkNumToFailOn
      ensures fault.Some? ==> fault.value == RuntimeException(FailureMessage(chunkNumToFailOn))
    {
      if chunk == chunkNumToFailOn {
        return Some(RuntimeException(FailureMessage(chunkNumToFailOn)));
      }
      return None;
    }
  }
}
