/** Shared value types: optional values, results, and the ways processing a
    shard can fail. */
module Common {

  datatype Option<+T> = None | Some(value: T)

  datatype Result<+R, +E> = Success(value: R) | Failure(error: E)

  /** Every exception that ends the run. None of them is retried or skipped. */
  datatype Error =
    | TransportError       // the shard request failed or answered with a non-2xx status
    | DecodeError          // the compressed stream was corrupt or truncated while reading a line
    | NoEndOfUrl           // the line has no space: "could not find end of url"
    | NoEndOfTimestamp     // the line has one space only: "could not find end of timestamp"
    | PayloadMalformed     // the JSON tokenizer raised while scanning the payload
    | PayloadUnterminated  // the token stream ended before the closing END_OBJECT

  /** How a step of the pipeline ended: normally, or with the exception that
      propagates out of it. */
  datatype Outcome = Completed | Aborted(error: Error)
}
