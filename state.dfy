/** The run-state record the controller and the stages share
    (`{"pipeline_id", "current_stage", "artifacts"}`): a dictionary every
    stage receives by reference and updates in place, and the full snapshot
    of it that the state store persists. */
module PipelineState {
  import opened Common

  datatype Stage =
    | Initialized
    | AudioValidated
    | AudioNormalized
    | TranscriptionDone
    | SentencesSelected

  /** The `current_stage` string the source stores. */
  function StageName(s: Stage): string
  {
    match s
    case Initialized => "initialized"
    case AudioValidated => "audio_validated"
    case AudioNormalized => "audio_normalized"
    case TranscriptionDone => "transcription_done"
    case SentencesSelected => "sentences_selected"
  }

  /** An artifact value: a path or name, or the selected spans themselves. */
  datatype Artifact = Str(s: string) | Spans(spans: seq<Span>)

  /** What one `update_state(**state)` writes: the whole record. */
  datatype Snapshot = Snapshot(pipelineId: string, currentStage: Stage, artifacts: map<string, Artifact>)

  /** Earlier artifacts are all still present, unchanged, in a later map. */
  predicate Extends(earlier: map<string, Artifact>, later: map<string, Artifact>)
  {
    forall key :: key in earlier ==> key in later && later[key] == earlier[key]
  }

  class RunState {
    /** `pipeline_id`; the empty string stands for a missing or empty id. */
    const pipelineId: string
    var currentStage: Stage
    var artifacts: map<string, Artifact>

    constructor (id: string, stage: Stage, initial: map<string, Artifact>)
      ensures pipelineId == id && currentStage == stage && artifacts == initial
    {
      pipelineId := id;
      currentStage := stage;
      artifacts := initial;
    }

    /** The record as `update_state(**state)` persists it. */
    function Snap(): Snapshot
      reads this
    {
      Snapshot(pipelineId, currentStage, artifacts)
    }
  }
}
