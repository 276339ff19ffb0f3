/** Values shared by every stage of the highlight-reel pipeline: the optional
    and failure-carrying wrappers, the timestamped transcript span, the
    outcome of an external tool, and the failures a run can end with. */
module Common {

  datatype Option<+T> = None | Some(value: T)

  datatype Result<+T, +E> = Ok(value: T) | Err(error: E)

  /** A transcript sentence or a merged selection: `start` and `end` in
      seconds and the spoken text (the `{"start", "end", "text"}` records). */
  datatype Span = Span(start: real, end: real, text: string)

  /** What an external process (ffprobe, ffmpeg, a model) did when run:
      it exited with status 0, or it failed and left its stderr behind. */
  datatype ToolOutcome = Succeeded | Failed(stderr: string)

  /** Every way a run can stop. Each names the exception the source raises. */
  datatype Failure =
    | InputAudioMissing                       // controller: "Input audio missing"
    | ProbeFailed(stderr: string)             // ffprobe exited non-zero
    | ProbeOutputUnparsable                   // ffprobe's stdout is not a float
    | AudioTooLong(duration: real, max: real) // "AUDIO_TOO_LONG: ..."
    | NormalizationFailed(stderr: string)     // "FFmpeg normalization failed: ..."
    | AudioBasenameMissing                    // "audio_basename missing in state.artifacts"
    | TranscriptionFailed(cause: string)      // the speech model raised
    | UnsupportedTone(tone: string)           // "Unsupported tone: ..."
    | ScoringFailed(cause: string)            // the relevance scorer raised
    | PipelineIdMissing                       // "pipeline_id missing in state"
    | CutFailed(stderr: string)               // ffmpeg cut exited non-zero
    | SilenceFailed(stderr: string)           // ffmpeg silence generation exited non-zero
    | StitchFailed(stderr: string)            // ffmpeg concat exited non-zero

  function Max(a: real, b: real): (m: real)
    ensures m >= a && m >= b && (m == a || m == b)
  {
    if a >= b then a else b
  }
}
