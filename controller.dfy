/** The pipeline controller (backend/app/pipeline/controller.py): one run
    resets the persisted state, checks the input exists, then runs validate,
    normalize, transcribe, select, cut and stitch in that order, persisting
    the whole run state after the first three, and cleans the working
    directories only once stitching has returned. The state store is the
    sequence of operations it receives.

    What a run returns or raises, what it persists, which external programs
    it invokes and which files it leaves are first given as functions of the
    run's environment (`RunResult`, `StoredSnapshots`, `RunCalls`,
    `RunFiles`); the controller's methods are proved to follow them, and the
    lemmas below them say what they mean. */
module Controller {
  import opened Common
  import opened Text
  import opened Paths
  import opened Runtime
  import opened PipelineState
  import opened DurationCheck
  import opened Transcription
  import opened SentenceSelection
  import opened Cutting
  import opened Stitching

  /** One call on the state store: `reset_state()` or `update_state(**state)`. */
  datatype StoreOp = Reset | Write(snapshot: Snapshot)

  /** Everything a run depends on that the core does not compute: the
      outcomes of the external tools and models, the configured duration
      ceiling, and how floats print in the filter graph. */
  datatype Environment = Environment(
    probe: ProbeResult,
    maxAudioSeconds: real,
    normalizeRun: ToolOutcome,
    transcript: TranscriptOutcome,
    scorer: ScorerOutcome,
    fmt: real -> string,
    cutRun: ToolOutcome,
    silenceRun: ToolOutcome,
    concatRun: ToolOutcome)

  /** `{"pipeline_id", "final_audio", "clips"}`. */
  datatype PipelineOutput = PipelineOutput(pipelineId: string, finalAudio: Option<string>, clips: seq<string>)

  /** The directories `_cleanup_after_success` removes. */
  const CleanupDirs: seq<string> := [InputDir, NormalizedDir, ClipsDir, SelectionDir, StateDir]

  /** `os.path.join(RUNTIME_DATA_NORMALIZED, f"{pipeline_id}.wav")`. */
  function NormalizedPath(pipelineId: string): string
  {
    PathJoin(NormalizedDir, pipelineId + ".wav")
  }

  /** `Path(input_path).stem.lower()`. */
  function AudioBasenameOf(inputPath: string): string
  {
    Lower(Stem(inputPath))
  }

  /** The basename is as long as the stem and free of separators, so the
      transcript file it names stays in the state directory. */
  lemma AudioBasenamePlain(inputPath: string)
    ensures var b := AudioBasenameOf(inputPath);
      |b| == |Stem(inputPath)| && '/' !in b
  {
    StemShape(inputPath);
    var b := AudioBasenameOf(inputPath);
    assert forall k :: 0 <= k < |b| ==> b[k] != '/';
  }

  /** The artifacts of a freshly initialised run. */
  function InitialArtifacts(inputPath: string): map<string, Artifact>
  {
    map["original_audio" := Str(inputPath), "audio_basename" := Str(AudioBasenameOf(inputPath))]
  }

  /** The three snapshots a run persists, in order: after validation, after
      normalization, after transcription. */
  function Persisted(pipelineId: string, inputPath: string): (snaps: seq<Snapshot>)
    ensures |snaps| == 3
  {
    var validated := InitialArtifacts(inputPath);
    var normalized := validated["normalized_audio" := Str(NormalizedPath(pipelineId))];
    var transcribed := normalized["whisper_output" := Str(WhisperOutputPath(AudioBasenameOf(inputPath)))];
    [ Snapshot(pipelineId, AudioValidated, validated),
      Snapshot(pipelineId, AudioNormalized, normalized),
      Snapshot(pipelineId, TranscriptionDone, transcribed) ]
  }

  function AsWrites(snaps: seq<Snapshot>): (ops: seq<StoreOp>)
    ensures |ops| == |snaps| && forall k :: 0 <= k < |snaps| ==> ops[k] == Write(snaps[k])
  {
    seq(|snaps|, k requires 0 <= k < |snaps| => Write(snaps[k]))
  }

  // ---------------------------------------------------------------------
  // What a run does, stage by stage, as a function of its environment
  // ---------------------------------------------------------------------

  /** Stage 3's result: the sentences, or the failure it raises (a missing
      basename first, then the speech model's error). */
  function TranscribeOutcome(inputPath: string, env: Environment): Result<seq<Span>, Failure>
  {
    if AudioBasenameOf(inputPath) == "" then Err(AudioBasenameMissing)
    else match env.transcript
      case TranscriptError(cause) => Err(TranscriptionFailed(cause))
      case Transcript(segments, _, _) => Ok(GroupSegmentsToSentences(segments))
  }

  /** Stages 1-3 on an existing input: the first to fail decides. */
  function EarlyOutcome(inputPath: string, env: Environment): Result<seq<Span>, Failure>
  {
    var duration := ValidateAudioDuration(env.probe, env.maxAudioSeconds);
    if duration.Err? then Err(duration.error)
    else if env.normalizeRun.Failed? then Err(NormalizationFailed(env.normalizeRun.stderr))
    else TranscribeOutcome(inputPath, env)
  }

  /** How many of the three snapshots a run persists: one per stage 1-3
      that succeeds, none when the input is missing. */
  function StoredSnapshots(inputPath: string, env: Environment, inputExists: bool): (n: nat)
    ensures n <= 3
  {
    if !inputExists || ValidateAudioDuration(env.probe, env.maxAudioSeconds).Err? then 0
    else if env.normalizeRun.Failed? then 1
    else if TranscribeOutcome(inputPath, env).Err? then 2
    else 3
  }

  /** Stage 4's result: the selection, or the failure the stage raises; a
      missing pipeline id is detected only once the selection is made. */
  function SelectOutcome(pipelineId: string, sentences: seq<Span>, tone: string, scorer: ScorerOutcome)
    : Result<seq<Span>, Failure>
  {
    var selected := SelectSentences(sentences, tone, scorer, DefaultTopK);
    if selected.Ok? && pipelineId == "" then Err(PipelineIdMissing) else selected
  }

  /** Stage 5's result: no clips for an empty selection, else one per span. */
  function CutOutcome(selected: seq<Span>, env: Environment): Result<seq<string>, Failure>
  {
    if selected == [] then Ok([])
    else if env.cutRun.Failed? then Err(CutFailed(env.cutRun.stderr))
    else Ok(ClipPaths(|selected|))
  }

  /** Stage 6's result; `silence` says whether the silence file already exists. */
  function StitchOutcome(clips: seq<string>, env: Environment, silence: bool): Result<Option<string>, Failure>
  {
    if clips == [] then Ok(None)
    else if !silence && env.silenceRun.Failed? then Err(SilenceFailed(env.silenceRun.stderr))
    else if env.concatRun.Failed? then Err(StitchFailed(env.concatRun.stderr))
    else Ok(Some(OutFile))
  }

  /** Stages 5-6 on a selection, then the document the run returns. */
  function ReelOutcome(pipelineId: string, selected: seq<Span>, env: Environment, silence: bool)
    : Result<PipelineOutput, Failure>
  {
    var clips := CutOutcome(selected, env);
    if clips.Err? then Err(clips.error)
    else
      var stitched := StitchOutcome(clips.value, env, silence);
      if stitched.Err? then Err(stitched.error)
      else Ok(PipelineOutput(pipelineId, stitched.value, clips.value))
  }

  /** Stages 4-6. */
  function FinalOutcome(pipelineId: string, sentences: seq<Span>, tone: string, env: Environment, silence: bool)
    : Result<PipelineOutput, Failure>
  {
    var selected := SelectOutcome(pipelineId, sentences, tone, env.scorer);
    if selected.Err? then Err(selected.error)
    else ReelOutcome(pipelineId, selected.value, env, silence)
  }

  /** What `run_pipeline` returns or raises. */
  function RunResult(pipelineId: string, inputPath: string, tone: string, env: Environment,
                     inputExists: bool, silence: bool): Result<PipelineOutput, Failure>
  {
    if !inputExists then Err(InputAudioMissing)
    else
      var early := EarlyOutcome(inputPath, env);
      if early.Err? then Err(early.error)
      else FinalOutcome(pipelineId, early.value, tone, env, silence)
  }

  /** Whether the silence file exists when stitching starts: it existed
      before the run, or normalization wrote it (only an absolute pipeline
      id can name it). No other stage writes it; see `NotSilence`. */
  predicate SilenceAtStitch(files: set<string>, pipelineId: string)
  {
    SilenceFile in files || SilenceFile == NormalizedPath(pipelineId)
  }

  /** The external programs stages 1-3 invoke, in order. */
  function EarlyCalls(pipelineId: string, inputPath: string, env: Environment): seq<ExternalCall>
  {
    var normalized := NormalizedPath(pipelineId);
    [Ffprobe(inputPath)]
    + if ValidateAudioDuration(env.probe, env.maxAudioSeconds).Err? then []
      else [Normalize(inputPath, normalized)]
           + if env.normalizeRun.Failed? || AudioBasenameOf(inputPath) == "" then []
             else [Transcribe(normalized)]
  }

  /** The scorer is run once, on the tone's query, unless the tone is unknown. */
  function ScoreCalls(sentences: seq<Span>, tone: string): seq<ExternalCall>
  {
    if tone in Tones then [Score(ToneQuery(tone), Texts(sentences))] else []
  }

  /** ffmpeg is run once to cut, unless there is nothing to cut. */
  function CutCalls(input: string, selected: seq<Span>, env: Environment): seq<ExternalCall>
  {
    if selected == [] then [] else [Ffmpeg(CutCommand(input, selected, env.fmt))]
  }

  /** Stitching generates the silence file when it is absent, then runs the
      concat over the list file `listPath`. */
  function StitchCalls(clips: seq<string>, env: Environment, silence: bool, listPath: string): seq<ExternalCall>
  {
    if clips == [] then []
    else
      (if silence then [] else [Ffmpeg(SilenceCommand)])
      + if !silence && env.silenceRun.Failed? then []
        else [FfmpegConcat(ConcatCommand(listPath), ListPrefix(clips, |clips|))]
  }

  /** The external programs stages 5-6 invoke, in order. */
  function ReelCalls(input: string, selected: seq<Span>, env: Environment, silence: bool, listPath: string)
    : seq<ExternalCall>
  {
    var clips := CutOutcome(selected, env);
    CutCalls(input, selected, env) + if clips.Err? then [] else StitchCalls(clips.value, env, silence, listPath)
  }

  /** The external programs stages 4-6 invoke, in order. */
  function FinalCalls(pipelineId: string, sentences: seq<Span>, tone: string, env: Environment,
                      silence: bool, listPath: string): seq<ExternalCall>
  {
    var selected := SelectOutcome(pipelineId, sentences, tone, env.scorer);
    ScoreCalls(sentences, tone)
    + if selected.Err? then [] else ReelCalls(NormalizedPath(pipelineId), selected.value, env, silence, listPath)
  }

  /** The external programs a run invokes, in order; `listPath` is the
      temporary list file stitching writes. */
  function RunCalls(pipelineId: string, inputPath: string, tone: string, env: Environment,
                    inputExists: bool, silence: bool, listPath: string): seq<ExternalCall>
  {
    if !inputExists then []
    else
      var early := EarlyOutcome(inputPath, env);
      EarlyCalls(pipelineId, inputPath, env)
      + if early.Err? then [] else FinalCalls(pipelineId, early.value, tone, env, silence, listPath)
  }

  /** The files named by a sequence of clip paths. */
  function ClipFiles(clips: seq<string>): set<string>
  {
    set i | 0 <= i < |clips| :: clips[i]
  }

  /** The files stitching leaves in the output directory. */
  function ReelFiles(clips: seq<string>): set<string>
  {
    if clips == [] then {} else {SilenceFile, OutFile}
  }

  /** The files stages 4-6 create in a successful run. */
  function FinalFiles(pipelineId: string, clips: seq<string>): set<string>
  {
    {SelectionOutputPath(pipelineId)} + ClipFiles(clips) + ReelFiles(clips)
  }

  /** The files a successful run creates before cleaning up. */
  function RunFiles(pipelineId: string, inputPath: string, clips: seq<string>): set<string>
  {
    var basename := AudioBasenameOf(inputPath);
    {NormalizedPath(pipelineId), WhisperOutputPath(basename), SelectionOutputPath(pipelineId)} + ClipFiles(clips)
    + ReelFiles(clips)
  }

  /** When a run succeeds, in terms of its environment alone: the input
      exists, the probe reports a duration within the ceiling, normalization
      succeeds, the input has a stem and the speech model returns a
      transcript, the tone is known, the scorer returns scores, the run has
      an id, and, unless nothing was selected, the cut, the silence
      generation (when needed) and the concat succeed. */
  predicate Succeeds(pipelineId: string, inputPath: string, tone: string, env: Environment,
                     inputExists: bool, silence: bool)
  {
    && inputExists
    && env.probe.returnCode == 0 && env.probe.duration.Some? && env.probe.duration.value <= env.maxAudioSeconds
    && env.normalizeRun.Succeeded?
    && AudioBasenameOf(inputPath) != "" && env.transcript.Transcript?
    && tone in Tones && env.scorer.Scores?
    && pipelineId != ""
    && (Selection(env, tone) == []
        || (env.cutRun.Succeeded? && (silence || env.silenceRun.Succeeded?) && env.concatRun.Succeeded?))
  }

  /** The spans a run selects once it has a transcript and scores. */
  function Selection(env: Environment, tone: string): seq<Span>
    requires env.transcript.Transcript? && env.scorer.Scores?
  {
    MergeClose(TopK(GroupSegmentsToSentences(env.transcript.segments), env.scorer.values, DefaultTopK))
  }

  // ---------------------------------------------------------------------
  // What those functions mean
  // ---------------------------------------------------------------------

  /** A run succeeds exactly when `Succeeds` says, and then it returns one
      clip per selected span, the reel unless nothing was selected, and its
      own id. */
  lemma RunSucceeds(pipelineId: string, inputPath: string, tone: string, env: Environment,
                    inputExists: bool, silence: bool)
    ensures RunResult(pipelineId, inputPath, tone, env, inputExists, silence).Ok?
            <==> Succeeds(pipelineId, inputPath, tone, env, inputExists, silence)
    ensures Succeeds(pipelineId, inputPath, tone, env, inputExists, silence) ==>
      var selected := Selection(env, tone);
      RunResult(pipelineId, inputPath, tone, env, inputExists, silence).value
        == PipelineOutput(pipelineId, if selected == [] then None else Some(OutFile), ClipPaths(|selected|))
  {
    if inputExists {
      RunSteps(pipelineId, inputPath, tone, env, silence, "");
      EarlySteps(pipelineId, inputPath, env);
      var early := EarlyOutcome(inputPath, env);
      if early.Ok? {
        assert env.transcript.Transcript? && early.value == GroupSegmentsToSentences(env.transcript.segments);
        FinalSucceeds(pipelineId, early.value, tone, env, silence);
      }
    }
  }

  /** Stage 4 succeeds exactly when the tone is known, the scorer returns
      scores and the run has an id; it then yields the merged top-ranked
      sentences. */
  lemma SelectSucceeds(pipelineId: string, sentences: seq<Span>, tone: string, scorer: ScorerOutcome)
    ensures SelectOutcome(pipelineId, sentences, tone, scorer).Ok? <==>
      tone in Tones && scorer.Scores? && pipelineId != ""
    ensures SelectOutcome(pipelineId, sentences, tone, scorer).Ok? ==>
      SelectOutcome(pipelineId, sentences, tone, scorer).value == MergeClose(TopK(sentences, scorer.values, DefaultTopK))
  {
    UnknownToneRejected(sentences, tone, scorer, DefaultTopK);
  }

  /** Stages 5-6 succeed exactly when nothing was selected or the cut, the
      silence generation (when needed) and the concat succeed; the run then
      returns one clip per selected span and the reel when there is one. */
  lemma ReelSucceeds(pipelineId: string, selected: seq<Span>, env: Environment, silence: bool)
    ensures ReelOutcome(pipelineId, selected, env, silence).Ok? <==>
      selected == [] || (env.cutRun.Succeeded? && (silence || env.silenceRun.Succeeded?) && env.concatRun.Succeeded?)
    ensures ReelOutcome(pipelineId, selected, env, silence).Ok? ==>
      ReelOutcome(pipelineId, selected, env, silence).value
        == PipelineOutput(pipelineId, if selected == [] then None else Some(OutFile), ClipPaths(|selected|))
  {
    if selected != [] {
      assert ClipPaths(|selected|) != [];
    }
  }

  /** Stages 4-6 succeed exactly when the tone is known, the scorer returns
      scores, the run has an id and, unless nothing was selected, the cut,
      the silence generation (when needed) and the concat succeed. */
  lemma FinalSucceeds(pipelineId: string, sentences: seq<Span>, tone: string, env: Environment, silence: bool)
    ensures FinalOutcome(pipelineId, sentences, tone, env, silence).Ok? <==>
      && tone in Tones && env.scorer.Scores? && pipelineId != ""
      && var selected := MergeClose(TopK(sentences, env.scorer.values, DefaultTopK));
         (selected == [] || (env.cutRun.Succeeded? && (silence || env.silenceRun.Succeeded?) && env.concatRun.Succeeded?))
    ensures FinalOutcome(pipelineId, sentences, tone, env, silence).Ok? ==>
      var selected := MergeClose(TopK(sentences, env.scorer.values, DefaultTopK));
      FinalOutcome(pipelineId, sentences, tone, env, silence).value
        == PipelineOutput(pipelineId, if selected == [] then None else Some(OutFile), ClipPaths(|selected|))
  {
    var selected := SelectOutcome(pipelineId, sentences, tone, env.scorer);
    SelectSucceeds(pipelineId, sentences, tone, env.scorer);
    if selected.Ok? {
      ReelSucceeds(pipelineId, selected.value, env, silence);
    }
  }

  /** A run on an existing input is stages 1-3, then, once they succeed,
      stages 4-6 on the sentences they produced. */
  lemma RunSteps(pipelineId: string, inputPath: string, tone: string, env: Environment,
                 silence: bool, listPath: string)
    ensures var early := EarlyOutcome(inputPath, env);
      && (early.Err? ==>
            && RunResult(pipelineId, inputPath, tone, env, true, silence) == Err(early.error)
            && RunCalls(pipelineId, inputPath, tone, env, true, silence, listPath) == EarlyCalls(pipelineId, inputPath, env))
      && (early.Ok? ==>
            && RunResult(pipelineId, inputPath, tone, env, true, silence)
               == FinalOutcome(pipelineId, early.value, tone, env, silence)
            && RunCalls(pipelineId, inputPath, tone, env, true, silence, listPath)
               == EarlyCalls(pipelineId, inputPath, env) + FinalCalls(pipelineId, early.value, tone, env, silence, listPath))
  {
    assert EarlyCalls(pipelineId, inputPath, env) + [] == EarlyCalls(pipelineId, inputPath, env);
  }

  /** Stages 1-3 followed, once they succeed, by stages 4-7 make up a run
      on an existing input: its result and its calls. */
  lemma StagesCompose(pipelineId: string, inputPath: string, tone: string, env: Environment, silence: bool,
                      listPath: string, t: Result<WhisperOutput, Failure>, r: Result<PipelineOutput, Failure>,
                      calls0: seq<ExternalCall>, calls1: seq<ExternalCall>, calls2: seq<ExternalCall>)
    requires t.Ok? <==> EarlyOutcome(inputPath, env).Ok?
    requires calls1 == calls0 + EarlyCalls(pipelineId, inputPath, env)
    requires t.Err? ==> t.error == EarlyOutcome(inputPath, env).error && r == Err(t.error) && calls2 == calls1
    requires t.Ok? ==> && t.value.sentences == EarlyOutcome(inputPath, env).value
                       && r == FinalOutcome(pipelineId, t.value.sentences, tone, env, silence)
                       && calls2 == calls1 + FinalCalls(pipelineId, t.value.sentences, tone, env, silence, listPath)
    ensures r == RunResult(pipelineId, inputPath, tone, env, true, silence)
    ensures calls2 == calls0 + RunCalls(pipelineId, inputPath, tone, env, true, silence, listPath)
  {
    RunSteps(pipelineId, inputPath, tone, env, silence, listPath);
    if t.Ok? {
      Append3(calls0, EarlyCalls(pipelineId, inputPath, env),
              FinalCalls(pipelineId, t.value.sentences, tone, env, silence, listPath), []);
    }
  }

  /** After stages 1-3 the silence file is present exactly when it was
      before or normalization wrote it. */
  lemma SilenceAfterEarly(pipelineId: string, basename: string, files0: set<string>, files1: set<string>)
    requires files1 == files0 + {NormalizedPath(pipelineId), WhisperOutputPath(basename)}
    ensures (SilenceFile in files1) == SilenceAtStitch(files0, pipelineId)
  {
    NotSilence(pipelineId, basename, 0);
  }

  /** The files of stages 1-3 and of stages 4-6 together are the run's. */
  lemma RunFilesSteps(files: set<string>, pipelineId: string, inputPath: string, clips: seq<string>)
    ensures files + {NormalizedPath(pipelineId), WhisperOutputPath(AudioBasenameOf(inputPath))}
            + FinalFiles(pipelineId, clips)
            == files + RunFiles(pipelineId, inputPath, clips)
  {
  }

  /** Stages 1-3 case by case: the outcome, the number of snapshots and
      the calls when validation fails, when normalization fails, and when
      both succeed and stage 3 decides. */
  lemma EarlySteps(pipelineId: string, inputPath: string, env: Environment)
    ensures var duration := ValidateAudioDuration(env.probe, env.maxAudioSeconds);
      var probe, normalize := Ffprobe(inputPath), Normalize(inputPath, NormalizedPath(pipelineId));
      && (duration.Err? ==>
            && EarlyOutcome(inputPath, env) == Err(duration.error)
            && StoredSnapshots(inputPath, env, true) == 0
            && EarlyCalls(pipelineId, inputPath, env) == [probe])
      && (duration.Ok? && env.normalizeRun.Failed? ==>
            && EarlyOutcome(inputPath, env) == Err(NormalizationFailed(env.normalizeRun.stderr))
            && StoredSnapshots(inputPath, env, true) == 1
            && EarlyCalls(pipelineId, inputPath, env) == [probe, normalize])
      && (duration.Ok? && env.normalizeRun.Succeeded? ==>
            && EarlyOutcome(inputPath, env) == TranscribeOutcome(inputPath, env)
            && StoredSnapshots(inputPath, env, true) == (if TranscribeOutcome(inputPath, env).Ok? then 3 else 2)
            && EarlyCalls(pipelineId, inputPath, env)
               == [probe, normalize] + if AudioBasenameOf(inputPath) == "" then [] else [Transcribe(NormalizedPath(pipelineId))])
  {
  }

  /** The first three stages persist one snapshot each as they succeed, and
      a successful run persists all three. */
  lemma SnapshotsFollowStages(pipelineId: string, inputPath: string, tone: string, env: Environment,
                              inputExists: bool, silence: bool)
    ensures var n := StoredSnapshots(inputPath, env, inputExists);
      && n <= 3
      && (n >= 1 <==> inputExists && ValidateAudioDuration(env.probe, env.maxAudioSeconds).Ok?)
      && (n >= 2 <==> n >= 1 && env.normalizeRun.Succeeded?)
      && (n == 3 <==> n >= 2 && AudioBasenameOf(inputPath) != "" && env.transcript.Transcript?)
      && (n == 3 <==> inputExists && EarlyOutcome(inputPath, env).Ok?)
    ensures RunResult(pipelineId, inputPath, tone, env, inputExists, silence).Ok? ==>
      StoredSnapshots(inputPath, env, inputExists) == 3
  {
  }

  /** Audio the duration check rejects stops the run after the probe: the
      check's failure is raised, nothing is persisted, nothing else runs. */
  lemma RejectedAudioStopsRun(pipelineId: string, inputPath: string, tone: string, env: Environment,
                              silence: bool, listPath: string)
    requires ValidateAudioDuration(env.probe, env.maxAudioSeconds).Err?
    ensures RunResult(pipelineId, inputPath, tone, env, true, silence)
            == Err(ValidateAudioDuration(env.probe, env.maxAudioSeconds).error)
    ensures StoredSnapshots(inputPath, env, true) == 0
    ensures RunCalls(pipelineId, inputPath, tone, env, true, silence, listPath) == [Ffprobe(inputPath)]
  {
  }

  /** The external programs of a successful run: probe, normalize,
      transcribe, score, and, unless nothing was selected, the cut, the
      silence generation when the file is absent, and the concat. */
  lemma SuccessfulRunCalls(pipelineId: string, inputPath: string, tone: string, env: Environment,
                           silence: bool, listPath: string)
    requires Succeeds(pipelineId, inputPath, tone, env, true, silence)
    ensures var normalized := NormalizedPath(pipelineId);
      var sentences := GroupSegmentsToSentences(env.transcript.segments);
      var selected := Selection(env, tone);
      var clips := ClipPaths(|selected|);
      RunCalls(pipelineId, inputPath, tone, env, true, silence, listPath)
      == [Ffprobe(inputPath), Normalize(inputPath, normalized), Transcribe(normalized),
          Score(ToneQuery(tone), Texts(sentences))]
         + SuccessfulStitchCalls(pipelineId, tone, env, silence, listPath)
  {
    var normalized := NormalizedPath(pipelineId);
    var sentences := GroupSegmentsToSentences(env.transcript.segments);
    SuccessfulEarlyCalls(pipelineId, inputPath, tone, env, silence, listPath);
    SuccessfulFinalCalls(pipelineId, inputPath, tone, env, silence, listPath);
    JoinCalls(Ffprobe(inputPath), Normalize(inputPath, normalized), Transcribe(normalized),
              Score(ToneQuery(tone), Texts(sentences)),
              RunCalls(pipelineId, inputPath, tone, env, true, silence, listPath),
              FinalCalls(pipelineId, sentences, tone, env, silence, listPath),
              SuccessfulStitchCalls(pipelineId, tone, env, silence, listPath));
  }

  lemma JoinCalls(a: ExternalCall, b: ExternalCall, c: ExternalCall, d: ExternalCall,
                  all: seq<ExternalCall>, final: seq<ExternalCall>, tail: seq<ExternalCall>)
    requires all == [a, b, c] + final && final == [d] + tail
    ensures all == [a, b, c, d] + tail
  {
    assert [a, b, c] + ([d] + tail) == [a, b, c, d] + tail;
  }

  /** The calls after scoring in a successful run. */
  function SuccessfulStitchCalls(pipelineId: string, tone: string, env: Environment, silence: bool, listPath: string)
    : seq<ExternalCall>
    requires env.transcript.Transcript? && env.scorer.Scores?
  {
    var selected := Selection(env, tone);
    var clips := ClipPaths(|selected|);
    if selected == [] then []
    else [Ffmpeg(CutCommand(NormalizedPath(pipelineId), selected, env.fmt))]
         + (if silence then [] else [Ffmpeg(SilenceCommand)])
         + [FfmpegConcat(ConcatCommand(listPath), ListPrefix(clips, |clips|))]
  }

  lemma SuccessfulEarlyCalls(pipelineId: string, inputPath: string, tone: string, env: Environment,
                             silence: bool, listPath: string)
    requires Succeeds(pipelineId, inputPath, tone, env, true, silence)
    ensures var normalized := NormalizedPath(pipelineId);
      RunCalls(pipelineId, inputPath, tone, env, true, silence, listPath)
      == [Ffprobe(inputPath), Normalize(inputPath, normalized), Transcribe(normalized)]
         + FinalCalls(pipelineId, GroupSegmentsToSentences(env.transcript.segments), tone, env, silence, listPath)
  {
    var normalized := NormalizedPath(pipelineId);
    var sentences := GroupSegmentsToSentences(env.transcript.segments);
    assert ValidateAudioDuration(env.probe, env.maxAudioSeconds).Ok?;
    assert EarlyOutcome(inputPath, env) == Ok(sentences);
    assert EarlyCalls(pipelineId, inputPath, env) == [Ffprobe(inputPath), Normalize(inputPath, normalized), Transcribe(normalized)];
  }

  lemma SuccessfulFinalCalls(pipelineId: string, inputPath: string, tone: string, env: Environment,
                             silence: bool, listPath: string)
    requires Succeeds(pipelineId, inputPath, tone, env, true, silence)
    ensures var sentences := GroupSegmentsToSentences(env.transcript.segments);
      FinalCalls(pipelineId, sentences, tone, env, silence, listPath)
      == [Score(ToneQuery(tone), Texts(sentences))] + SuccessfulStitchCalls(pipelineId, tone, env, silence, listPath)
  {
    var normalized := NormalizedPath(pipelineId);
    var sentences := GroupSegmentsToSentences(env.transcript.segments);
    var selected := Selection(env, tone);
    var clips := ClipPaths(|selected|);
    assert SelectOutcome(pipelineId, sentences, tone, env.scorer) == Ok(selected);
    FinalSteps(pipelineId, sentences, tone, env, silence, listPath);
    if selected == [] {
      assert CutOutcome(selected, env) == Ok([]);
    } else {
      var cut := [Ffmpeg(CutCommand(normalized, selected, env.fmt))];
      var concat := [FfmpegConcat(ConcatCommand(listPath), ListPrefix(clips, |clips|))];
      var gen: seq<ExternalCall> := if silence then [] else [Ffmpeg(SilenceCommand)];
      assert CutOutcome(selected, env) == Ok(clips);
      assert StitchCalls(clips, env, silence, listPath) == gen + concat;
      Append3(cut, gen, concat, []);
    }
  }

  /** For a plain pipeline id, everything a successful run creates except
      the reel and the silence file lies in a cleaned directory, so the
      run leaves what was there outside those directories, plus the reel
      and the silence file when something was selected. */
  lemma CleanRunLeavesReel(pipelineId: string, inputPath: string, clips: seq<string>, files: set<string>)
    requires '/' !in pipelineId && AudioBasenameOf(inputPath) != "" && clips == ClipPaths(|clips|)
    ensures RemoveTrees(files + RunFiles(pipelineId, inputPath, clips), CleanupDirs)
            == RemoveTrees(files, CleanupDirs) + ReelFiles(clips)
  {
    ClipFilesCleaned(clips);
    CleanedRunFiles(pipelineId, inputPath, clips, files);
  }

  /** `CleanRunLeavesReel` for any clips that lie in cleaned directories. */
  lemma CleanedRunFiles(pipelineId: string, inputPath: string, clips: seq<string>, files: set<string>)
    requires '/' !in pipelineId && AudioBasenameOf(inputPath) != ""
    requires forall f :: f in ClipFiles(clips) ==> Cleaned(f)
    ensures RemoveTrees(files + RunFiles(pipelineId, inputPath, clips), CleanupDirs)
            == RemoveTrees(files, CleanupDirs) + ReelFiles(clips)
  {
    var basename := AudioBasenameOf(inputPath);
    AudioBasenamePlain(inputPath);
    var removed := {NormalizedPath(pipelineId), WhisperOutputPath(basename), SelectionOutputPath(pipelineId)}
                   + ClipFiles(clips);
    RunPathsCleaned(pipelineId, basename);
    ReelFilesKept(clips);
    RemoveTreesAdd(files, removed, ReelFiles(clips));
  }

  /** The normalized audio, the transcript and the selection file of a
      plain pipeline id and basename lie in cleaned directories. */
  lemma RunPathsCleaned(pipelineId: string, basename: string)
    requires '/' !in pipelineId && '/' !in basename && basename != ""
    ensures Cleaned(NormalizedPath(pipelineId)) && Cleaned(WhisperOutputPath(basename))
    ensures Cleaned(SelectionOutputPath(pipelineId))
  {
    NamedUnder(NormalizedDir, pipelineId, ".wav");
    NamedUnder(SelectionDir, pipelineId, "_sentences.json");
    WhisperPathInStateDir(basename);
    assert UnderDir(NormalizedPath(pipelineId), CleanupDirs[1]);
    assert UnderDir(WhisperOutputPath(basename), CleanupDirs[4]);
    assert UnderDir(SelectionOutputPath(pipelineId), CleanupDirs[3]);
  }

  /** Every clip lies in the cleaned clips directory. */
  lemma ClipFilesCleaned(clips: seq<string>)
    requires clips == ClipPaths(|clips|)
    ensures forall f :: f in ClipFiles(clips) ==> Cleaned(f)
  {
    CleanupRemovesClips(|clips|);
    forall f | f in ClipFiles(clips) ensures Cleaned(f) {
      var i :| 0 <= i < |clips| && clips[i] == f;
      assert UnderDir(f, CleanupDirs[2]);
    }
  }

  /** The reel and the silence file lie in no cleaned directory. */
  lemma ReelFilesKept(clips: seq<string>)
    ensures forall f :: f in ReelFiles(clips) ==> Kept(f)
  {
    CleanupSparesOutput();
  }

  /** Whatever the pipeline id, a successful run leaves the reel when
      something was selected, none of its clips, and nothing at all in the
      cleaned directories. */
  lemma RunLeavesNoWork(files: set<string>, pipelineId: string, inputPath: string, clips: seq<string>)
    requires clips == ClipPaths(|clips|)
    ensures var after := RemoveTrees(files + RunFiles(pipelineId, inputPath, clips), CleanupDirs);
      && (clips != [] ==> OutFile in after)
      && (forall i :: 0 <= i < |clips| ==> clips[i] !in after)
      && (forall f, i :: f in after && 0 <= i < |CleanupDirs| ==> !UnderDir(f, CleanupDirs[i]))
  {
    ClipFilesCleaned(clips);
    CleanedClipsLeaveNoWork(files + RunFiles(pipelineId, inputPath, clips), clips);
  }

  /** `RunLeavesNoWork` for any clips that lie in cleaned directories. */
  lemma CleanedClipsLeaveNoWork(all: set<string>, clips: seq<string>)
    requires forall f :: f in ClipFiles(clips) ==> Cleaned(f)
    requires clips != [] ==> OutFile in all
    ensures var after := RemoveTrees(all, CleanupDirs);
      && (clips != [] ==> OutFile in after)
      && (forall i :: 0 <= i < |clips| ==> clips[i] !in after)
  {
    if clips != [] {
      ReelFilesKept(clips);
      KeptSurvives(all, OutFile);
    }
    forall i | 0 <= i < |clips| ensures clips[i] !in RemoveTrees(all, CleanupDirs) {
      assert clips[i] in ClipFiles(clips);
      CleanedRemoved(all, clips[i]);
    }
  }

  lemma KeptSurvives(files: set<string>, f: string)
    requires f in files && Kept(f)
    ensures f in RemoveTrees(files, CleanupDirs)
  {
  }

  lemma CleanedRemoved(files: set<string>, f: string)
    requires Cleaned(f)
    ensures f !in RemoveTrees(files, CleanupDirs)
  {
  }

  /** `f` lies in one of the cleaned directories. */
  predicate Cleaned(f: string)
  {
    exists i :: 0 <= i < |CleanupDirs| && UnderDir(f, CleanupDirs[i])
  }

  /** `f` lies in none of the cleaned directories. */
  predicate Kept(f: string)
  {
    forall i :: 0 <= i < |CleanupDirs| ==> !UnderDir(f, CleanupDirs[i])
  }

  /** Adding files that each lie in a cleaned directory, and files `kept`
      that lie in none, adds exactly `kept` to what survives the cleanup. */
  lemma RemoveTreesAdd(files: set<string>, removed: set<string>, kept: set<string>)
    requires forall f :: f in removed ==> Cleaned(f)
    requires forall f :: f in kept ==> Kept(f)
    ensures RemoveTrees(files + (removed + kept), CleanupDirs) == RemoveTrees(files, CleanupDirs) + kept
  {
  }

  /** `os.path.join(dir, id + suffix)` lies in `dir` when `id` has no separator. */
  lemma NamedUnder(dir: string, pipelineId: string, suffix: string)
    requires '/' !in pipelineId && |suffix| > 0 && suffix[0] != '/' && |dir| > 0 && dir[|dir| - 1] != '/'
    ensures UnderDir(PathJoin(dir, pipelineId + suffix), dir)
  {
    var name := pipelineId + suffix;
    assert name[0] != '/' by {
      if |pipelineId| > 0 { assert pipelineId[0] in pipelineId; }
    }
    var p := PathJoin(dir, name);
    assert p == dir + "/" + name;
    assert p[..|dir| + 1] == dir + "/";
  }

  /** The transcript, the selection file and the clips are never the
      silence file: the first two end in ".json", the clips lie in the
      clips directory. */
  lemma NotSilence(pipelineId: string, basename: string, n: nat)
    ensures WhisperOutputPath(basename) != SilenceFile
    ensures SelectionOutputPath(pipelineId) != SilenceFile
    ensures SilenceFile !in ClipFiles(ClipPaths(n))
  {
    PathJoinEnds(StateDir, basename + "_whisper.json");
    PathJoinEnds(SelectionDir, pipelineId + "_sentences.json");
    assert SilenceFile[|SilenceFile| - 1] == 'v';
    CleanupSparesOutput();
    CleanupRemovesClips(n);
  }

  /** A successful cut names the clips of its span count, none of them
      the silence file. */
  lemma CutKeepsSilence(selected: seq<Span>, env: Environment, files: set<string>)
    requires CutOutcome(selected, env).Ok?
    ensures var clips := CutOutcome(selected, env).value;
      && clips == ClipPaths(|clips|)
      && (SilenceFile in files + ClipFiles(clips) <==> SilenceFile in files)
  {
    var clips := CutOutcome(selected, env).value;
    assert clips == ClipPaths(|clips|);
    NotSilence("", "", |clips|);
  }

  /** What is persisted: the stages advance audio_validated,
      audio_normalized, transcription_done (`initialized` and
      `sentences_selected` are never written), the first snapshot holds
      exactly the original audio and its lowercased stem, and each later
      snapshot keeps every artifact of the one before unchanged, adding one. */
  lemma PersistedSnapshots(pipelineId: string, inputPath: string)
    ensures var s := Persisted(pipelineId, inputPath);
      && |s| == 3
      && StageName(s[0].currentStage) == "audio_validated"
      && StageName(s[1].currentStage) == "audio_normalized"
      && StageName(s[2].currentStage) == "transcription_done"
      && (forall k :: 0 <= k < 3 ==> s[k].pipelineId == pipelineId)
      && s[0].artifacts.Keys == {"original_audio", "audio_basename"}
      && s[0].artifacts["audio_basename"] == Str(Lower(Stem(inputPath)))
      && s[1].artifacts.Keys == s[0].artifacts.Keys + {"normalized_audio"}
      && s[1].artifacts["normalized_audio"] == Str(NormalizedPath(pipelineId))
      && s[2].artifacts.Keys == s[1].artifacts.Keys + {"whisper_output"}
      && Extends(s[0].artifacts, s[1].artifacts) && Extends(s[1].artifacts, s[2].artifacts)
  {
  }

  /** The output directory is not among those cleaned, and neither the
      reel nor the silence file lies in any cleaned directory. */
  lemma CleanupSparesOutput()
    ensures OutputDir !in CleanupDirs
    ensures forall i :: 0 <= i < |CleanupDirs| ==> !UnderDir(OutFile, CleanupDirs[i]) && !UnderDir(SilenceFile, CleanupDirs[i])
  {
    // "/runtime/data/o..." against "/runtime/data/{i,n,c,s}..." and "/runtime/s..."
    forall p | p == OutFile || p == SilenceFile
      ensures !UnderDir(p, InputDir) && !UnderDir(p, NormalizedDir) && !UnderDir(p, ClipsDir)
      ensures !UnderDir(p, SelectionDir) && !UnderDir(p, StateDir)
    {
      DiffersAt(p, InputDir, 14);
      DiffersAt(p, NormalizedDir, 14);
      DiffersAt(p, ClipsDir, 14);
      DiffersAt(p, SelectionDir, 14);
      DiffersAt(p, StateDir, 9);
    }
  }

  /** A path that differs from `dir` at some position inside `dir` is not beneath it. */
  lemma DiffersAt(p: string, dir: string, k: nat)
    requires k < |dir| && k < |p| && p[k] != dir[k]
    ensures !UnderDir(p, dir)
  {
  }

  /** Every clip lies in a cleaned directory. */
  lemma CleanupRemovesClips(n: nat)
    ensures forall i :: 0 <= i < n ==> UnderDir(ClipPaths(n)[i], ClipsDir) && ClipsDir == CleanupDirs[2]
  {
    forall i | 0 <= i < n ensures UnderDir(ClipPaths(n)[i], ClipsDir) {
      ClipPathsAt(n, i);
      ClipPathsDistinct(i, i);
    }
  }

  /** Stages 4-6: a failed selection stops the run after the scorer;
      otherwise stages 5-6 follow on the selection. */
  lemma FinalSteps(pipelineId: string, sentences: seq<Span>, tone: string, env: Environment,
                   silence: bool, listPath: string)
    ensures var selected := SelectOutcome(pipelineId, sentences, tone, env.scorer);
      var outcome := FinalOutcome(pipelineId, sentences, tone, env, silence);
      var calls := FinalCalls(pipelineId, sentences, tone, env, silence, listPath);
      && (selected.Err? ==> outcome == Err(selected.error) && calls == ScoreCalls(sentences, tone))
      && (selected.Ok? ==>
            && outcome == ReelOutcome(pipelineId, selected.value, env, silence)
            && calls == ScoreCalls(sentences, tone) + ReelCalls(NormalizedPath(pipelineId), selected.value, env, silence, listPath))
  {
    assert ScoreCalls(sentences, tone) + [] == ScoreCalls(sentences, tone);
  }

  /** Adding files other than the silence file leaves its presence as it was. */
  lemma AddedNotSilence(files: set<string>, added: set<string>)
    requires SilenceFile !in added
    ensures (SilenceFile in files + added) == (SilenceFile in files)
  {
  }

  /** Stage 4 followed, once it selects, by stages 5-7 makes up stages
      4-7: their result and their calls. */
  lemma FinalCompose(pipelineId: string, sentences: seq<Span>, tone: string, env: Environment, silence: bool,
                     listPath: string, selected: Result<seq<Span>, Failure>, r: Result<PipelineOutput, Failure>,
                     calls0: seq<ExternalCall>, calls1: seq<ExternalCall>, calls2: seq<ExternalCall>)
    requires selected == SelectOutcome(pipelineId, sentences, tone, env.scorer)
    requires calls1 == calls0 + ScoreCalls(sentences, tone)
    requires selected.Err? ==> r == Err(selected.error) && calls2 == calls1
    requires selected.Ok? ==>
      && r == ReelOutcome(pipelineId, selected.value, env, silence)
      && calls2 == calls1 + ReelCalls(NormalizedPath(pipelineId), selected.value, env, silence, listPath)
    ensures r == FinalOutcome(pipelineId, sentences, tone, env, silence)
    ensures calls2 == calls0 + FinalCalls(pipelineId, sentences, tone, env, silence, listPath)
  {
    FinalSteps(pipelineId, sentences, tone, env, silence, listPath);
    if selected.Ok? {
      Append3(calls0, ScoreCalls(sentences, tone), ReelCalls(NormalizedPath(pipelineId), selected.value, env, silence, listPath), []);
    }
  }

  /** Writing the selection file leaves the silence file's presence as it was. */
  lemma SilenceAfterSelect(pipelineId: string, files0: set<string>, files1: set<string>)
    requires files1 == files0 + {SelectionOutputPath(pipelineId)}
    ensures (SilenceFile in files1) == (SilenceFile in files0)
  {
    NotSilence(pipelineId, "", 0);
  }

  /** The selection file, the clips and the reel files together are the
      files of stages 4-7. */
  lemma FinalFilesCompose(pipelineId: string, clips: seq<string>, files0: set<string>, files2: set<string>)
    requires files2 == RemoveTrees(files0 + {SelectionOutputPath(pipelineId)} + (ClipFiles(clips) + ReelFiles(clips)), CleanupDirs)
    ensures files2 == RemoveTrees(files0 + FinalFiles(pipelineId, clips), CleanupDirs)
  {
    assert files0 + {SelectionOutputPath(pipelineId)} + (ClipFiles(clips) + ReelFiles(clips))
           == files0 + FinalFiles(pipelineId, clips);
  }

  /** Stages 5-6: a failed cut stops the run after the cut; otherwise
      stitching decides. */
  lemma ReelSteps(pipelineId: string, input: string, selected: seq<Span>, env: Environment,
                  silence: bool, listPath: string)
    ensures var clips := CutOutcome(selected, env);
      var outcome := ReelOutcome(pipelineId, selected, env, silence);
      var calls := ReelCalls(input, selected, env, silence, listPath);
      && (clips.Err? ==> outcome == Err(clips.error) && calls == CutCalls(input, selected, env))
      && (clips.Ok? ==>
            var stitched := StitchOutcome(clips.value, env, silence);
            && outcome == (if stitched.Err? then Err(stitched.error) else Ok(PipelineOutput(pipelineId, stitched.value, clips.value)))
            && calls == CutCalls(input, selected, env) + StitchCalls(clips.value, env, silence, listPath))
  {
    assert CutCalls(input, selected, env) + [] == CutCalls(input, selected, env);
  }

  /** Stage 5 followed, once it cuts, by stages 6-7 makes up stages 5-7:
      their result, their calls and their files. */
  lemma ReelCompose(pipelineId: string, input: string, selected: seq<Span>, env: Environment, listPath: string,
                    clips: Result<seq<string>, Failure>, r: Result<PipelineOutput, Failure>,
                    calls0: seq<ExternalCall>, calls1: seq<ExternalCall>, calls2: seq<ExternalCall>,
                    files0: set<string>, files1: set<string>, files2: set<string>)
    requires clips == CutOutcome(selected, env)
    requires calls1 == calls0 + CutCalls(input, selected, env)
    requires files1 == files0 + if clips.Ok? then ClipFiles(clips.value) else {}
    requires clips.Err? ==> r == Err(clips.error) && calls2 == calls1 && files2 == files1
    requires clips.Ok? ==>
      var stitched := StitchOutcome(clips.value, env, SilenceFile in files1);
      && r == (if stitched.Err? then Err(stitched.error) else Ok(PipelineOutput(pipelineId, stitched.value, clips.value)))
      && calls2 == calls1 + StitchCalls(clips.value, env, SilenceFile in files1, listPath)
      && (r.Err? ==> files1 <= files2)
      && (r.Ok? ==> files2 == RemoveTrees(files1 + ReelFiles(clips.value), CleanupDirs))
    ensures r == ReelOutcome(pipelineId, selected, env, SilenceFile in files0)
    ensures calls2 == calls0 + ReelCalls(input, selected, env, SilenceFile in files0, listPath)
    ensures r.Err? ==> files0 <= files2
    ensures r.Ok? ==> files2 == RemoveTrees(files0 + (ClipFiles(r.value.clips) + ReelFiles(r.value.clips)), CleanupDirs)
  {
    var silence := SilenceFile in files0;
    ReelSteps(pipelineId, input, selected, env, silence, listPath);
    if clips.Ok? {
      CutKeepsSilence(selected, env, files0);
      assert (SilenceFile in files1) == silence;
      if r.Ok? {
        assert r.value.clips == clips.value;
        assert files1 + ReelFiles(clips.value) == files0 + (ClipFiles(clips.value) + ReelFiles(clips.value));
      }
    }
  }

  lemma Append3<T>(a: seq<T>, b: seq<T>, c: seq<T>, d: seq<T>)
    ensures a + b + c + d == a + (b + (c + d)) && a + b + c == a + (b + c)
  {
  }

  class PipelineController {
    const host: Host
    /** Every call the state store has received, oldest first. */
    var store: seq<StoreOp>

    constructor (host: Host)
      ensures this.host == host && store == []
    {
      this.host := host;
      store := [];
    }

    /** `run_pipeline(pipeline_id, input_path, tone)`: the result, the store
        writes, the external calls and the surviving files are those the
        functions above give for this environment. */
    method RunPipeline(pipelineId: string, inputPath: string, tone: string, env: Environment)
      returns (r: Result<PipelineOutput, Failure>)
      modifies this, host
      ensures store == old(store) + [Reset]
        + AsWrites(Persisted(pipelineId, inputPath))[..StoredSnapshots(inputPath, env, inputPath in old(host.files))]
      ensures r == RunResult(pipelineId, inputPath, tone, env, inputPath in old(host.files),
                             SilenceAtStitch(old(host.files), pipelineId))
      ensures exists listPath :: (host.calls == old(host.calls)
        + RunCalls(pipelineId, inputPath, tone, env, inputPath in old(host.files),
                   SilenceAtStitch(old(host.files), pipelineId), listPath))
      ensures inputPath !in old(host.files) ==> host.files == old(host.files)
      ensures r.Err? ==> old(host.files) <= host.files
      ensures r.Ok? ==> host.files == RemoveTrees(old(host.files) + RunFiles(pipelineId, inputPath, r.value.clips), CleanupDirs)
    {
      store := store + [Reset];
      ghost var silence := SilenceAtStitch(host.files, pipelineId);
      ghost var persisted := AsWrites(Persisted(pipelineId, inputPath));
      var state := new RunState(pipelineId, Initialized, InitialArtifacts(inputPath));
      var normalizedPath := NormalizedPath(pipelineId);
      if inputPath !in host.files {
        assert store == old(store) + [Reset] + persisted[..0];
        assert host.calls == old(host.calls) + RunCalls(pipelineId, inputPath, tone, env, false, silence, "");
        return Err(InputAudioMissing);
      }
      ghost var listPath;
      r, listPath := RunStages(state, inputPath, normalizedPath, tone, env);
    }

    /** Stages 1-7 on an input that exists. */
    method RunStages(state: RunState, inputPath: string, normalizedPath: string, tone: string, env: Environment)
      returns (r: Result<PipelineOutput, Failure>, ghost listPath: string)
      requires state.currentStage == Initialized && state.artifacts == InitialArtifacts(inputPath)
      requires normalizedPath == NormalizedPath(state.pipelineId)
      modifies this, state, host
      ensures store == old(store) + AsWrites(Persisted(state.pipelineId, inputPath))[..StoredSnapshots(inputPath, env, true)]
      ensures r == RunResult(state.pipelineId, inputPath, tone, env, true, SilenceAtStitch(old(host.files), state.pipelineId))
      ensures host.calls == old(host.calls)
        + RunCalls(state.pipelineId, inputPath, tone, env, true, SilenceAtStitch(old(host.files), state.pipelineId), listPath)
      ensures r.Err? ==> old(host.files) <= host.files
      ensures r.Ok? ==>
        host.files == RemoveTrees(old(host.files) + RunFiles(state.pipelineId, inputPath, r.value.clips), CleanupDirs)
    {
      var pipelineId := state.pipelineId;
      ghost var silence := SilenceAtStitch(host.files, pipelineId);
      ghost var calls0, files0 := host.calls, host.files;
      listPath := "";
      var transcript := RunPersistedStages(state, inputPath, normalizedPath, env);
      if transcript.Err? {
        r := Err(transcript.error);
        StagesCompose(pipelineId, inputPath, tone, env, silence, listPath, transcript, r,
                      calls0, host.calls, host.calls);
        return;
      }
      ghost var calls1 := host.calls;
      SilenceAfterEarly(pipelineId, AudioBasenameOf(inputPath), files0, host.files);
      r, listPath := RunFinalStages(state, normalizedPath, transcript.value.sentences, tone, env);
      StagesCompose(pipelineId, inputPath, tone, env, silence, listPath, transcript, r,
                    calls0, calls1, host.calls);
      if r.Ok? {
        RunFilesSteps(files0, pipelineId, inputPath, r.value.clips);
      }
    }

    /** Stages 1-3, each followed by a full-state write: validate the
        duration, normalize, transcribe. */
    method RunPersistedStages(state: RunState, inputPath: string, normalizedPath: string, env: Environment)
      returns (t: Result<WhisperOutput, Failure>)
      requires state.currentStage == Initialized && state.artifacts == InitialArtifacts(inputPath)
      requires normalizedPath == NormalizedPath(state.pipelineId)
      modifies this, state, host
      ensures store == old(store) + AsWrites(Persisted(state.pipelineId, inputPath))[..StoredSnapshots(inputPath, env, true)]
      ensures t.Ok? <==> EarlyOutcome(inputPath, env).Ok?
      ensures t.Err? ==> t.error == EarlyOutcome(inputPath, env).error
      ensures t.Ok? ==> t.value.sentences == EarlyOutcome(inputPath, env).value
      ensures host.calls == old(host.calls) + EarlyCalls(state.pipelineId, inputPath, env)
      ensures old(host.files) <= host.files
      ensures t.Ok? ==> host.files == old(host.files) + {normalizedPath, WhisperOutputPath(AudioBasenameOf(inputPath))}
    {
      ghost var snaps := Persisted(state.pipelineId, inputPath);
      ghost var probe, normalize := Ffprobe(inputPath), Normalize(inputPath, normalizedPath);
      PersistedWrites(snaps);
      EarlySteps(state.pipelineId, inputPath, env);
      var ok := ValidateAndNormalize(state, inputPath, normalizedPath, env);
      if ok.Err? {
        return Err(ok.error);
      }

      // 3. transcribe
      ghost var calls1 := host.calls;
      t := TranscribeStep(state, inputPath, normalizedPath, env);
      ghost var transcribe: seq<ExternalCall> := if AudioBasenameOf(inputPath) == "" then [] else [Transcribe(normalizedPath)];
      Append3(old(host.calls), [probe, normalize], transcribe, []);
      Append3(old(store), [Write(snaps[0]), Write(snaps[1])], [Write(snaps[2])], []);
    }

    /** Stages 1 and 2, each followed by a full-state write. */
    method ValidateAndNormalize(state: RunState, inputPath: string, normalizedPath: string, env: Environment)
      returns (ok: Result<(), Failure>)
      requires state.currentStage == Initialized && state.artifacts == InitialArtifacts(inputPath)
      requires normalizedPath == NormalizedPath(state.pipelineId)
      modifies this, state, host
      ensures var duration, snaps := ValidateAudioDuration(env.probe, env.maxAudioSeconds), Persisted(state.pipelineId, inputPath);
        && (duration.Err? ==>
              && ok == Err(duration.error) && store == old(store)
              && host.calls == old(host.calls) + [Ffprobe(inputPath)] && host.files == old(host.files))
        && (duration.Ok? && env.normalizeRun.Failed? ==>
              && ok == Err(NormalizationFailed(env.normalizeRun.stderr)) && store == old(store) + [Write(snaps[0])]
              && host.calls == old(host.calls) + [Ffprobe(inputPath), Normalize(inputPath, normalizedPath)]
              && host.files == old(host.files))
        && (duration.Ok? && env.normalizeRun.Succeeded? ==>
              && ok == Ok(()) && store == old(store) + [Write(snaps[0]), Write(snaps[1])] && state.Snap() == snaps[1]
              && host.calls == old(host.calls) + [Ffprobe(inputPath), Normalize(inputPath, normalizedPath)]
              && host.files == old(host.files) + {normalizedPath})
    {
      // 1. validate the duration
      ok := ValidateStep(state, inputPath, env);
      if ok.Err? {
        return;
      }

      // 2. normalize
      ok := NormalizeStep(state, inputPath, normalizedPath, env);
    }

    /** Stage 1: probe the duration against the ceiling, then persist. */
    method ValidateStep(state: RunState, inputPath: string, env: Environment)
      returns (ok: Result<(), Failure>)
      requires state.currentStage == Initialized && state.artifacts == InitialArtifacts(inputPath)
      modifies this, state, host
      ensures ok.Ok? <==> ValidateAudioDuration(env.probe, env.maxAudioSeconds).Ok?
      ensures ok.Err? ==> ok.error == ValidateAudioDuration(env.probe, env.maxAudioSeconds).error && store == old(store)
      ensures ok.Ok? ==> store == old(store) + [Write(Persisted(state.pipelineId, inputPath)[0])]
                         && state.Snap() == Persisted(state.pipelineId, inputPath)[0]
      ensures host.files == old(host.files) && host.calls == old(host.calls) + [Ffprobe(inputPath)]
    {
      PersistedChain(state.pipelineId, inputPath);
      host.calls := host.calls + [Ffprobe(inputPath)];
      var duration := ValidateAudioDuration(env.probe, env.maxAudioSeconds);
      if duration.Err? {
        return Err(duration.error);
      }
      state.currentStage := AudioValidated;
      store := store + [Write(state.Snap())];
      ok := Ok(());
    }

    /** Stage 2: normalize the input into `normalizedPath`, then persist. */
    method NormalizeStep(state: RunState, inputPath: string, normalizedPath: string, env: Environment)
      returns (ok: Result<(), Failure>)
      requires state.Snap() == Persisted(state.pipelineId, inputPath)[0]
      requires normalizedPath == NormalizedPath(state.pipelineId)
      modifies this, state, host
      ensures host.calls == old(host.calls) + [Normalize(inputPath, normalizedPath)]
      ensures env.normalizeRun.Failed? ==>
        ok == Err(NormalizationFailed(env.normalizeRun.stderr)) && store == old(store) && host.files == old(host.files)
      ensures env.normalizeRun.Succeeded? ==>
        && ok == Ok(())
        && store == old(store) + [Write(Persisted(state.pipelineId, inputPath)[1])]
        && state.Snap() == Persisted(state.pipelineId, inputPath)[1]
        && host.files == old(host.files) + {normalizedPath}
    {
      PersistedChain(state.pipelineId, inputPath);
      host.calls := host.calls + [Normalize(inputPath, normalizedPath)];
      if env.normalizeRun.Failed? {
        return Err(NormalizationFailed(env.normalizeRun.stderr));
      }
      host.files := host.files + {normalizedPath};
      state.artifacts := state.artifacts["normalized_audio" := Str(normalizedPath)];
      state.currentStage := AudioNormalized;
      store := store + [Write(state.Snap())];
      ok := Ok(());
    }

    /** Stage 3: transcribe the normalized audio, then persist. */
    method TranscribeStep(state: RunState, inputPath: string, normalizedPath: string, env: Environment)
      returns (t: Result<WhisperOutput, Failure>)
      requires state.Snap() == Persisted(state.pipelineId, inputPath)[1]
      modifies this, state, host
      ensures t.Ok? <==> TranscribeOutcome(inputPath, env).Ok?
      ensures t.Err? ==>
        t.error == TranscribeOutcome(inputPath, env).error && store == old(store) && host.files == old(host.files)
      ensures t.Ok? ==>
        && t.value.sentences == TranscribeOutcome(inputPath, env).value
        && store == old(store) + [Write(Persisted(state.pipelineId, inputPath)[2])]
        && host.files == old(host.files) + {WhisperOutputPath(AudioBasenameOf(inputPath))}
      ensures host.calls == old(host.calls) + if AudioBasenameOf(inputPath) == "" then [] else [Transcribe(normalizedPath)]
    {
      PersistedChain(state.pipelineId, inputPath);
      t := RunWhisperTranscription(state, host, normalizedPath, env.transcript);
      if t.Err? {
        return;
      }
      store := store + [Write(state.Snap())];
    }

    /** Stages 4-7, none of them persisted: select, cut, stitch, then clean
        up. `listPath` is the list file stitching used. */
    method RunFinalStages(state: RunState, normalizedPath: string, sentences: seq<Span>, tone: string,
                          env: Environment)
      returns (r: Result<PipelineOutput, Failure>, ghost listPath: string)
      requires normalizedPath == NormalizedPath(state.pipelineId)
      modifies state, host
      ensures r == FinalOutcome(state.pipelineId, sentences, tone, env, SilenceFile in old(host.files))
      ensures host.calls == old(host.calls)
        + FinalCalls(state.pipelineId, sentences, tone, env, SilenceFile in old(host.files), listPath)
      ensures r.Err? ==> old(host.files) <= host.files
      ensures r.Ok? ==> host.files == RemoveTrees(old(host.files) + FinalFiles(state.pipelineId, r.value.clips), CleanupDirs)
    {
      ghost var calls0, files0 := host.calls, host.files;
      ghost var silence := SilenceFile in host.files;
      listPath := "";

      // 4. select
      var selected := SelectStep(state, sentences, tone, env);
      ghost var calls1 := host.calls;
      if selected.Err? {
        r := Err(selected.error);
        FinalCompose(state.pipelineId, sentences, tone, env, silence, listPath, selected, r, calls0, calls1, calls1);
        return;
      }
      SilenceAfterSelect(state.pipelineId, files0, host.files);

      // 5-7
      r, listPath := RunReelStages(state.pipelineId, normalizedPath, selected.value, env);
      FinalCompose(state.pipelineId, sentences, tone, env, silence, listPath, selected, r, calls0, calls1, host.calls);
      if r.Ok? {
        FinalFilesCompose(state.pipelineId, r.value.clips, files0, host.files);
      }
    }

    /** Stages 5-7: cut, stitch, then clean up. */
    method RunReelStages(pipelineId: string, normalizedPath: string, selected: seq<Span>, env: Environment)
      returns (r: Result<PipelineOutput, Failure>, ghost listPath: string)
      modifies host
      ensures r == ReelOutcome(pipelineId, selected, env, SilenceFile in old(host.files))
      ensures host.calls == old(host.calls)
        + ReelCalls(normalizedPath, selected, env, SilenceFile in old(host.files), listPath)
      ensures r.Err? ==> old(host.files) <= host.files
      ensures r.Ok? ==> host.files == RemoveTrees(old(host.files) + (ClipFiles(r.value.clips) + ReelFiles(r.value.clips)), CleanupDirs)
    {
      ghost var calls0, files0 := host.calls, host.files;
      listPath := "";

      // 5. cut
      var clips := CutStep(normalizedPath, selected, env);
      ghost var calls1, files1 := host.calls, host.files;
      if clips.Err? {
        r := Err(clips.error);
        ReelCompose(pipelineId, normalizedPath, selected, env, listPath, clips, r,
                    calls0, calls1, calls1, files0, files1, files1);
        return;
      }
      CutKeepsSilence(selected, env, files0);

      // 6-7
      r, listPath := StitchAndClean(pipelineId, clips.value, env);
      ReelCompose(pipelineId, normalizedPath, selected, env, listPath, clips, r,
                  calls0, calls1, host.calls, files0, files1, host.files);
    }

    /** Stages 6-7: stitch the clips, then clean up. */
    method StitchAndClean(pipelineId: string, clips: seq<string>, env: Environment)
      returns (r: Result<PipelineOutput, Failure>, ghost listPath: string)
      requires clips == ClipPaths(|clips|)
      modifies host
      ensures var stitched := StitchOutcome(clips, env, SilenceFile in old(host.files));
        r == if stitched.Err? then Err(stitched.error) else Ok(PipelineOutput(pipelineId, stitched.value, clips))
      ensures host.calls == old(host.calls) + StitchCalls(clips, env, SilenceFile in old(host.files), listPath)
      ensures r.Err? ==> old(host.files) <= host.files
      ensures r.Ok? ==> host.files == RemoveTrees(old(host.files) + ReelFiles(clips), CleanupDirs)
    {
      // 6. stitch
      var finalAudio;
      finalAudio, listPath := StitchStep(clips, env);
      if finalAudio.Err? {
        return Err(finalAudio.error), listPath;
      }

      // 7. clean up
      CleanupStep(clips);
      r := Ok(PipelineOutput(pipelineId, finalAudio.value, clips));
    }

    /** Stage 4: rank and merge the sentences for the tone. */
    method SelectStep(state: RunState, sentences: seq<Span>, tone: string, env: Environment)
      returns (selected: Result<seq<Span>, Failure>)
      modifies state, host
      ensures selected == SelectOutcome(state.pipelineId, sentences, tone, env.scorer)
      ensures host.calls == old(host.calls) + ScoreCalls(sentences, tone)
      ensures host.files == old(host.files) + if selected.Ok? then {SelectionOutputPath(state.pipelineId)} else {}
    {
      selected := RunSentenceSelection(state, host, sentences, tone, env.scorer, DefaultTopK);
    }

    /** Stage 5: cut one clip per selected span. */
    method CutStep(normalizedPath: string, selected: seq<Span>, env: Environment)
      returns (clips: Result<seq<string>, Failure>)
      modifies host
      ensures clips == CutOutcome(selected, env)
      ensures host.calls == old(host.calls) + CutCalls(normalizedPath, selected, env)
      ensures host.files == old(host.files) + if clips.Ok? then ClipFiles(clips.value) else {}
    {
      clips := CutAudio(host, normalizedPath, selected, env.fmt, env.cutRun);
      assert ClipFiles([]) == {};
    }

    /** Stage 6: stitch the clips through a fresh temporary list file,
        whose name is returned. */
    method StitchStep(clips: seq<string>, env: Environment)
      returns (finalAudio: Result<Option<string>, Failure>, ghost listPath: string)
      modifies host
      ensures finalAudio == StitchOutcome(clips, env, SilenceFile in old(host.files))
      ensures host.calls == old(host.calls) + StitchCalls(clips, env, SilenceFile in old(host.files), listPath)
      ensures old(host.files) <= host.files
      ensures finalAudio.Ok? ==> host.files == old(host.files) + ReelFiles(clips)
    {
      var list := host.FreshTempName(".txt");
      TempNameIsNoOutput(list);
      listPath := list;
      finalAudio := StitchAudio(host, clips, list, env.silenceRun, env.concatRun);
    }

    /** Stage 7: `_cleanup_after_success()`. The reel survives, the clips and
        everything else in the cleaned directories do not. */
    method CleanupStep(clips: seq<string>)
      requires clips == ClipPaths(|clips|)
      modifies host
      ensures host.files == RemoveTrees(old(host.files), CleanupDirs) && host.calls == old(host.calls)
      ensures OutFile in old(host.files) ==> OutFile in host.files
      ensures forall i :: 0 <= i < |clips| ==> clips[i] !in host.files
      ensures forall f, i :: f in host.files && 0 <= i < |CleanupDirs| ==> !UnderDir(f, CleanupDirs[i])
    {
      CleanupSparesOutput();
      CleanupRemovesClips(|clips|);
      host.RemoveDirs(CleanupDirs);
    }
  }

  /** Each persisted snapshot is the one before with one stage advanced and
      one artifact added; the basename the transcription stage reads is the
      one initialised from the input path. */
  lemma PersistedChain(pipelineId: string, inputPath: string)
    ensures var s := Persisted(pipelineId, inputPath);
      && s[0] == Snapshot(pipelineId, AudioValidated, InitialArtifacts(inputPath))
      && s[1] == Snapshot(pipelineId, AudioNormalized, s[0].artifacts["normalized_audio" := Str(NormalizedPath(pipelineId))])
      && AudioBasename(s[1].artifacts) == AudioBasenameOf(inputPath)
      && s[2] == Snapshot(pipelineId, TranscriptionDone,
                          s[1].artifacts["whisper_output" := Str(WhisperOutputPath(AudioBasename(s[1].artifacts)))])
  {
    var s := Persisted(pipelineId, inputPath);
    assert "normalized_audio" != "audio_basename";
    assert s[1].artifacts["audio_basename"] == Str(AudioBasenameOf(inputPath));
  }

  /** The writes of the first `n` snapshots, for each `n`. */
  lemma PersistedWrites(snaps: seq<Snapshot>)
    requires |snaps| == 3
    ensures AsWrites(snaps)[..0] == []
    ensures AsWrites(snaps)[..1] == [Write(snaps[0])]
    ensures AsWrites(snaps)[..2] == [Write(snaps[0]), Write(snaps[1])]
    ensures AsWrites(snaps)[..3] == [Write(snaps[0]), Write(snaps[1])] + [Write(snaps[2])]
  {
  }

  /** A name `mkstemp` hands out in `/tmp` is neither output file. */
  lemma TempNameIsNoOutput(p: string)
    requires |p| >= 5 && p[..5] == "/tmp/"
    ensures p != OutFile && p != SilenceFile
  {
    assert OutFile[1] != p[1];
  }
}
