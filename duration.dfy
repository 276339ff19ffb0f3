/** The preflight duration guard
    (backend/app/stages/preflight_validation/audio_duration_check.py): the
    probed duration is accepted up to and including the configured ceiling.
    The ffprobe run is an input: its exit status, its standard error, and the
    number its standard output parses to (if any). */
module DurationCheck {
  import opened Common
  import opened Text

  /** What running ffprobe on the file gave back. `duration` is
      `float(stdout.strip())`, or `None` when that does not parse. */
  datatype ProbeResult = ProbeResult(returnCode: int, duration: Option<real>, stderr: string)

  /** `_ffprobe_duration(path)`. */
  function ProbeDuration(probe: ProbeResult): (r: Result<real, Failure>)
    ensures probe.returnCode != 0 <==> r == Err(ProbeFailed(Strip(probe.stderr)))
    ensures r.Ok? <==> probe.returnCode == 0 && probe.duration.Some?
    ensures r.Ok? ==> r.value == probe.duration.value
  {
    if probe.returnCode != 0 then Err(ProbeFailed(Strip(probe.stderr)))
    else match probe.duration
      case None => Err(ProbeOutputUnparsable)
      case Some(d) => Ok(d)
  }

  /** `validate_audio_duration(path)` against the ceiling `maxSeconds`
      (`MAX_AUDIO_DURATION_SECONDS`). */
  function ValidateAudioDuration(probe: ProbeResult, maxSeconds: real): (r: Result<real, Failure>)
    ensures r.Ok? <==> ProbeDuration(probe).Ok? && ProbeDuration(probe).value <= maxSeconds
    ensures r.Ok? ==> r.value == probe.duration.value
  {
    match ProbeDuration(probe)
    case Err(e) => Err(e)
    case Ok(d) => if d > maxSeconds then Err(AudioTooLong(d, maxSeconds)) else Ok(d)
  }

  /** A failed probe and a too-long file are told apart: a non-zero exit
      always reports the probe error and never the length error. */
  lemma ProbeFailureDistinct(probe: ProbeResult, maxSeconds: real)
    requires probe.returnCode != 0
    ensures ValidateAudioDuration(probe, maxSeconds) == Err(ProbeFailed(Strip(probe.stderr)))
    ensures !ValidateAudioDuration(probe, maxSeconds).error.AudioTooLong?
  {
  }

  /** The ceiling is strict: exactly the maximum passes, anything above fails. */
  lemma CeilingIsStrict(d: real, stderr: string, maxSeconds: real)
    ensures ValidateAudioDuration(ProbeResult(0, Some(d), stderr), maxSeconds) ==
      if d > maxSeconds then Err(AudioTooLong(d, maxSeconds)) else Ok(d)
    ensures ValidateAudioDuration(ProbeResult(0, Some(maxSeconds), stderr), maxSeconds) == Ok(maxSeconds)
  {
  }
}
