/** Failure-carrying results shared by the parsers and the pipeline. */
module Wrappers {

  datatype Option<+T> = None | Some(value: T)

  datatype Result<+R, +E> = Ok(value: R) | Err(error: E)
}

/** The fatal conditions of the fusion scripts: each one ends the run with an error message. */
module Failures {

  datatype Failure =
    | NoDiarizationSegments       // "No diarization segments found"
    | NoTranscriptSegments        // "No transcript segments parsed"
    | SampleRateMismatch(rate: int) // "Audio must be 16kHz"
    | MalformedNumber(token: string) // the ValueError `float()` raises on a non-numeric field
}
