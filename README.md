# clip-forge highlight reel — a Dafny model of the pipeline core

clip-forge turns an uploaded talk into a short highlight reel. The upload
endpoint checks the file name and extension and clears the previous run's
working directories. It stores the file under a fresh pipeline id and runs
the pipeline controller, whose stages are:

1. Probe the duration against a ceiling.
2. Normalize the audio.
3. Transcribe it into sentences.
4. Rank the sentences for a tone with a relevance scorer, keep the best
   `top_k` and merge those that lie close together in time.
5. Cut one padded, faded clip per merged span.
6. Stitch the clips with one second of silence between neighbours.
7. Remove the working directories.

The run state is persisted after each of the first three stages.

This project models that deterministic core. The speech model, the scorer
and every ffmpeg/ffprobe run are inputs: what each returned, or the error
it raised. The machine is a `Runtime.Host` object. It holds the set of
existing files and the log of every external program the core invoked.
The state store is the sequence of `reset_state`/`update_state` calls it
received.

Each source file keeps its own form:
- The merge loop, the cut-command loop and the concat-list loop are
  methods with loop invariants. Each is proved equal to a specification
  function, and the source's promises are proved about that function.
- The controller is a class whose methods update the store, the run state
  and the host in place.
- The pure parts (tone table, ranking, sentence grouping, duration
  decision, window arithmetic, sanitising) are functions with lemmas.

| file | module | source |
|---|---|---|
| common.dfy | Common | shared values: spans, tool outcomes, the failures a run can raise |
| text.dfy | Text | `str.strip`, `str.lower`, `str(n)`, `sep.join` |
| paths.dfy | Paths | backend/app/config/paths.py and `os.path.join`/`splitext`/`Path.stem` |
| host.dfy | Runtime | files and external calls; `shutil.rmtree`, `tempfile.mkstemp` |
| state.dfy | PipelineState | the shared run-state dictionary |
| duration.dfy | DurationCheck | backend/app/stages/preflight_validation/audio_duration_check.py |
| sorting.dfy | StableSort | Python's stable `sorted` |
| selection.dfy | SentenceSelection | backend/app/stages/sentence_selection/cross_encoder_stage.py |
| transcription.dfy | Transcription | backend/app/stages/transcription/whisper_stage.py |
| cutting.dfy | Cutting | backend/app/stages/audio_cutting/cut.py |
| stitching.dfy | Stitching | backend/app/stages/audio_stitching/stitch.py |
| controller.dfy | Controller | backend/app/pipeline/controller.py |
| routes.dfy | Routes | backend/app/api/routes.py |

The tone table `TONE_QUERIES` has five tones, "storytelling" among them
(`SentenceSelection.ToneVocabulary`).

## Model

| member | source | states |
|---|---|---|
| Text.Strip | backend/app/api/routes.py:39 | `strip()` leaves no whitespace at either end and never lengthens the string |
| Text.Lower | backend/app/api/routes.py:39 | `lower()` maps each character on its own and keeps the length (ASCII-only lowercase, see "Left out") |
| Text.NatToString | backend/app/stages/audio_cutting/cut.py:43 | `str(i)` is one or more decimal digits, two or more exactly when i ≥ 10 |
| Text.StripSlice | backend/app/api/routes.py:39 | `strip()` yields the middle slice of the string left once the whitespace run at each end is removed; everything cut off is whitespace |
| Text.StripIdempotent | backend/app/api/routes.py:39 | stripping twice gives the same as stripping once |
| Text.NatToStringInjective | backend/app/stages/audio_cutting/cut.py:43 | distinct clip indices print as distinct decimal strings |
| Paths.StemShape | backend/app/pipeline/controller.py:79 | `Path(p).stem` holds no separator and is a prefix of the base name; when it is shorter, the base name goes on with a dot and a non-empty, dot-free suffix |
| Paths.ExtShape | backend/app/api/routes.py:82 | the extension `splitext` returns is empty, or a tail of the path that starts with a dot and holds no other dot and no separator |
| Runtime.RemoveTrees | backend/app/pipeline/controller.py:33-41 | a file survives removing the directory trees exactly when it lies beneath none of them, and nothing is added |
| Runtime.Host.RemoveDirs | backend/app/pipeline/controller.py:40-41 | `rmtree` on each directory leaves exactly the files beneath none of them and invokes no external program |
| Runtime.Host.FreshTempName | backend/app/stages/audio_stitching/stitch.py:58 | `mkstemp` gives a name in `/tmp` that names no existing file |
| PipelineState.RunState.constructor | backend/app/pipeline/controller.py:82-89 | the run state starts with the given id, stage and artifacts |
| DurationCheck.ProbeDuration | backend/app/stages/preflight_validation/audio_duration_check.py:29-33 | a non-zero exit, and only that, gives the probe error with the stripped stderr; a zero exit with parsable output, and only that, gives exactly the parsed duration |
| DurationCheck.ValidateAudioDuration | backend/app/stages/preflight_validation/audio_duration_check.py:50-59 | the file is accepted if and only if the probe succeeded and the duration is at most the ceiling, and then the probed duration is returned |
| DurationCheck.ProbeFailureDistinct | backend/app/stages/preflight_validation/audio_duration_check.py:30-31 | a failed probe reports the probe error, never the too-long error |
| DurationCheck.CeilingIsStrict | backend/app/stages/preflight_validation/audio_duration_check.py:54-57 | a duration above the ceiling gives `AUDIO_TOO_LONG`; a duration equal to the ceiling passes |
| StableSort.InsertSorted | backend/app/stages/sentence_selection/cross_encoder_stage.py:105-109 | inserting a new position into a stably sorted index list keeps it stably sorted |
| StableSort.SortIndicesSorted | backend/app/stages/sentence_selection/cross_encoder_stage.py:105-109 | the sort orders positions by key and, among equal keys, by position (stability) |
| StableSort.InsertMultiset | backend/app/stages/sentence_selection/cross_encoder_stage.py:105-109 | insertion adds exactly the one position |
| StableSort.SortIndicesPermutation | backend/app/stages/sentence_selection/cross_encoder_stage.py:105-109 | the sorted positions are a permutation of 0..n-1 |
| StableSort.SortIndicesHas | backend/app/stages/sentence_selection/cross_encoder_stage.py:105-109 | every position occurs in the sorted positions |
| StableSort.InsertAtEnd | backend/app/stages/sentence_selection/cross_encoder_stage.py:48 | a position that precedes none of the others is placed last |
| StableSort.SortIndicesOfSorted | backend/app/stages/sentence_selection/cross_encoder_stage.py:48 | sorting keys already in ascending order moves nothing |
| StableSort.PermuteInsert | backend/app/stages/sentence_selection/cross_encoder_stage.py:105-112 | reading items through an insertion adds exactly the inserted item to the multiset read |
| StableSort.SortPermutes | backend/app/stages/sentence_selection/cross_encoder_stage.py:105-112 | the items read in sorted order are a permutation of the items |
| SentenceSelection.TopK | backend/app/stages/sentence_selection/cross_encoder_stage.py:105-112 | the selection has min(top_k, n) sentences, where `zip` pairs n sentences with scores, and each is one of the input sentences |
| SentenceSelection.TopKRanked | backend/app/stages/sentence_selection/cross_encoder_stage.py:105-112 | the selection has min(top_k, n) sentences, where `zip` pairs n sentences with scores. They are the sentences at the first ranked positions, with no position twice, ordered by score from high to low and, on equal scores, in transcript order |
| SentenceSelection.TopKKeepsBest | backend/app/stages/sentence_selection/cross_encoder_stage.py:105-112 | no sentence left out scores higher than any selected sentence |
| SentenceSelection.SortByStartAscending | backend/app/stages/sentence_selection/cross_encoder_stage.py:48 | `sorted(segments, key=start)` is in start order |
| SentenceSelection.SortByStartPermutes | backend/app/stages/sentence_selection/cross_encoder_stage.py:48 | sorting by start loses and duplicates no span |
| SentenceSelection.SortByStartOfSorted | backend/app/stages/sentence_selection/cross_encoder_stage.py:48 | spans already in start order stay in place |
| SentenceSelection.StepSize | backend/app/stages/sentence_selection/cross_encoder_stage.py:55-59 | one merge step adds at most one span and never removes one |
| SentenceSelection.StepAscending | backend/app/stages/sentence_selection/cross_encoder_stage.py:55-59 | one merge step keeps the merged starts in order; absorbing keeps the last span's start |
| SentenceSelection.StepGaps | backend/app/stages/sentence_selection/cross_encoder_stage.py:55-59 | one merge step keeps every gap between consecutive merged spans above `MERGE_GAP` |
| SentenceSelection.StepCovers | backend/app/stages/sentence_selection/cross_encoder_stage.py:55-59 | after a step, the new span and every span covered before are covered |
| SentenceSelection.StepTexts | backend/app/stages/sentence_selection/cross_encoder_stage.py:57 | one step appends the new text, after one space, to the space-joined merged texts |
| SentenceSelection.MergeSize | backend/app/stages/sentence_selection/cross_encoder_stage.py:49-61 | merging never adds spans, and a non-empty input gives a non-empty output |
| SentenceSelection.MergeStartsAscending | backend/app/stages/sentence_selection/cross_encoder_stage.py:48-59 | over start-sorted input the merged starts are non-decreasing |
| SentenceSelection.MergeGaps | backend/app/stages/sentence_selection/cross_encoder_stage.py:55-59 | each consecutive merged pair is more than `MERGE_GAP` apart |
| SentenceSelection.MergeCovers | backend/app/stages/sentence_selection/cross_encoder_stage.py:55-59 | every input span lies within some merged span |
| SentenceSelection.MergeTexts | backend/app/stages/sentence_selection/cross_encoder_stage.py:57 | the merged texts joined by spaces spell out the input texts joined by spaces, in order |
| SentenceSelection.MergeOfGapped | backend/app/stages/sentence_selection/cross_encoder_stage.py:55-59 | spans already more than `MERGE_GAP` apart pass through unchanged |
| SentenceSelection.MergeCloseProperties | backend/app/stages/sentence_selection/cross_encoder_stage.py:44-61 | the output is empty if and only if the input is, is no longer than the input, is in start order with gaps above `MERGE_GAP`, covers every input span and keeps all the text in start order |
| SentenceSelection.MergeCloseIdempotent | backend/app/stages/sentence_selection/cross_encoder_stage.py:44-61 | merging the merged list again changes nothing |
| SentenceSelection.MergeExamplePrefix | backend/app/stages/sentence_selection/cross_encoder_stage.py:55-57 | spans 0.3 s apart merge into one with the later end and the texts joined by a space |
| SentenceSelection.MergeExample | backend/app/stages/sentence_selection/cross_encoder_stage.py:48-61 | `[{0,2,"a"},{2.3,4,"b"},{10,12,"c"}]` merges to `[{0,4,"a b"},{10,12,"c"}]` |
| SentenceSelection.MergeCloseSegments | backend/app/stages/sentence_selection/cross_encoder_stage.py:44-61 | the method returns `[]` for `[]`; otherwise 1 to n spans, in start order, more than `MERGE_GAP` apart, equal to the specification `MergeClose` |
| SentenceSelection.MergeSortedSpans | backend/app/stages/sentence_selection/cross_encoder_stage.py:49-61 | the loop that widens the last span or appends computes the single greedy pass `MergeSorted` |
| SentenceSelection.UnknownToneRejected | backend/app/stages/sentence_selection/cross_encoder_stage.py:92-102 | selection fails if and only if the tone is unknown or the scorer failed; an unknown tone gives `Unsupported tone` whatever the scorer would say |
| SentenceSelection.SelectionShape | backend/app/stages/sentence_selection/cross_encoder_stage.py:92-115 | with a known tone a scorer error fails the stage with the scorer's cause; a selection has at most min(top_k, n) spans, in start order, each gap above `MERGE_GAP`, and every top-ranked sentence lies within one of them |
| SentenceSelection.ToneVocabulary | backend/app/stages/sentence_selection/cross_encoder_stage.py:13-32 | the tone table has exactly the five tones, "storytelling" among them |
| SentenceSelection.RunSentenceSelection | backend/app/stages/sentence_selection/cross_encoder_stage.py:92-145 | an unknown tone fails before the scorer is called, with nothing changed. Otherwise the scorer is called once with the tone's query. A scorer error changes no state. On scores, the selected sentences and the `sentences_selected` stage are recorded before the `pipeline_id` check; a missing id then fails with no file written, and a present id writes `{id}_sentences.json` and records its path |
| Transcription.StrippedText | backend/app/stages/transcription/whisper_stage.py:25 | the text read from a segment has no whitespace at either end |
| Transcription.GroupSegmentsToSentences | backend/app/stages/transcription/whisper_stage.py:9-35 | no more sentences than segments, each with trimmed, non-empty text |
| Transcription.UnflaggedExact | backend/app/stages/transcription/whisper_stage.py:24-27 | the kept positions increase, and a position is kept if and only if its segment is not blank |
| Transcription.KeptStep | backend/app/stages/transcription/whisper_stage.py:24-27 | keeping or dropping the next position extends the kept-position facts by one |
| Transcription.KeptPositionsMap | backend/app/stages/transcription/whisper_stage.py:24-35 | sentence k is the sentence made from the k-th kept segment |
| Transcription.GroupIsFilterMap | backend/app/stages/transcription/whisper_stage.py:24-35 | grouping is exactly a filter-map: blank segments are dropped, the others become their start, end and trimmed text, in input order |
| Transcription.GroupAppend | backend/app/stages/transcription/whisper_stage.py:24-35 | grouping a concatenation groups each part |
| Transcription.GroupIdempotent | backend/app/stages/transcription/whisper_stage.py:24-35 | grouping the sentences again returns them unchanged |
| Transcription.GroupOfStripped | backend/app/stages/transcription/whisper_stage.py:24-35 | trimmed, non-empty sentences fed back as segments are kept as they are |
| Transcription.RunWhisperTranscription | backend/app/stages/transcription/whisper_stage.py:49-107 | a missing `audio_basename` fails before the model runs, with nothing changed. Otherwise the model runs once on the audio. An error leaves the state alone. A transcript gives the grouped sentences, writes `/runtime/state/{basename}_whisper.json`, records its path and sets `transcription_done` |
| Transcription.WhisperPathInStateDir | backend/app/stages/transcription/whisper_stage.py:56 | the transcript file lies in the state directory |
| Cutting.ClipWindow | backend/app/stages/audio_cutting/cut.py:47-49 | the window start is `max(0, start - PAD_START)` and never negative; the end is `end + PAD_END`; the duration is their difference; the fade-out starts at `max(0, duration - FADE_DURATION)` and never before 0 |
| Cutting.WindowCoversSentence | backend/app/stages/audio_cutting/cut.py:47-48 | the window starts no later than the sentence and ends after it |
| Cutting.WindowExample | backend/app/stages/audio_cutting/cut.py:47-58 | `{5.0, 7.0}` gives the window [4.53, 7.47], duration 2.94, fade-out at 2.14 |
| Cutting.FilterParts | backend/app/stages/audio_cutting/cut.py:53-60 | one filter part per selection |
| Cutting.ClipPaths | backend/app/stages/audio_cutting/cut.py:42-44 | one clip path per selection |
| Cutting.MapArgs | backend/app/stages/audio_cutting/cut.py:63 | three arguments per clip |
| Cutting.CollectOutputs | backend/app/stages/audio_cutting/cut.py:38-63 | the loop builds the base command plus the `-map` triples, the filter parts and the clip paths, in selection order |
| Cutting.InsertAfterInput | backend/app/stages/audio_cutting/cut.py:66-67 | the two inserts at position 4 put `-filter_complex` and the graph right after the input |
| Cutting.BuildCutCommand | backend/app/stages/audio_cutting/cut.py:38-67 | the command built is `CutCommand`: `ffmpeg -y -i input -filter_complex F`, then the `-map` triples; the clips are the clip paths |
| Cutting.ClipPathsAt | backend/app/stages/audio_cutting/cut.py:42-44 | the i-th clip is `clip_{i}.wav` |
| Cutting.MapArgsAt | backend/app/stages/audio_cutting/cut.py:63 | the i-th `-map` triple selects `[a{i}]` into `clip_{i}.wav` |
| Cutting.FilterPartsAt | backend/app/stages/audio_cutting/cut.py:53-60 | filter part i is built from the window of selection i |
| Cutting.CutCommandLayout | backend/app/stages/audio_cutting/cut.py:38-67 | the command has 6 + 3N arguments: the six fixed leading ones, then `-map`, `[a{i}]`, `clip_{i}.wav` for each i |
| Cutting.FilterPartLabelled | backend/app/stages/audio_cutting/cut.py:53-60 | part i trims input `[0:a]` to window i and ends with the label `[a{i}]` that the i-th `-map` selects |
| Cutting.ClipPathsDistinct | backend/app/stages/audio_cutting/cut.py:43 | clip paths lie in the clip directory and distinct clips have distinct paths |
| Cutting.CutAudio | backend/app/stages/audio_cutting/cut.py:32-77 | no selections gives `[]` and runs nothing. Otherwise exactly the cut command is run; success creates and returns the clip paths, failure raises the ffmpeg error |
| Stitching.OutputLocations | backend/app/stages/audio_stitching/stitch.py:6-8 | the reel and the silence file are in the output directory |
| Stitching.EscapeRoundTrip | backend/app/stages/audio_stitching/stitch.py:65 | replacing each `'` by `'\''` loses nothing: the path is recovered from its escaped form |
| Stitching.EscapeNoQuote | backend/app/stages/audio_stitching/stitch.py:65 | a path without quotes is written as it is |
| Stitching.SilenceNeedsNoEscape | backend/app/stages/audio_stitching/stitch.py:70 | the silence path needs no escaping, so writing it unescaped is safe |
| Stitching.ListPrefixShape | backend/app/stages/audio_stitching/stitch.py:63-71 | before the last clip, each clip has written its own line, then one silence line |
| Stitching.ConcatListShape | backend/app/stages/audio_stitching/stitch.py:63-71 | N ≥ 1 clips give 2N-1 lines: clip c at line 2c, silence at line 2c+1 for all but the last clip; the first and last lines are clips |
| Stitching.WriteConcatList | backend/app/stages/audio_stitching/stitch.py:62-71 | the loop writes exactly `ListPrefix` of all the clips |
| Stitching.EnsureSilence | backend/app/stages/audio_stitching/stitch.py:11-35 | an existing silence file means nothing runs; otherwise one generation runs and creates the file, or fails leaving no file |
| Stitching.StitchAudio | backend/app/stages/audio_stitching/stitch.py:38-94 | no clips returns `None` and touches nothing. Otherwise the silence file is ensured, then the concat run reads the list of all clip lines; success returns `OUT_FILE`; the temporary list is gone either way |
| Controller.AudioBasenamePlain | backend/app/pipeline/controller.py:79 | the audio basename is the lowercased stem: as long as the stem and free of separators |
| Controller.PersistedSnapshots | backend/app/pipeline/controller.py:79-118 | the persisted stages are `audio_validated`, `audio_normalized`, `transcription_done`. The first snapshot holds exactly the input path and its lowercased stem. Each later snapshot keeps every earlier artifact unchanged and adds one: the normalized path, then the transcript path |
| Controller.PersistedChain | backend/app/pipeline/controller.py:82-118 | each snapshot is the one before with its stage advanced and one artifact added; the basename the transcription reads is the one the controller initialised |
| Controller.RunSucceeds | backend/app/pipeline/controller.py:97-146 | a run succeeds if and only if the input exists, the duration check accepts, normalization succeeds, the stem is non-empty and a transcript is given, the tone is known and scored, the id is present, and, unless nothing was selected, the cut, the silence generation (when the file is absent) and the concat succeed. It then returns its id, one clip `clip_i.wav` per selected span and the reel exactly when something was selected |
| Controller.SelectSucceeds | backend/app/pipeline/controller.py:120-127 | stage 4 succeeds if and only if the tone is known, the scorer returns scores and the id is present; it then yields the merged top-12 sentences |
| Controller.ReelSucceeds | backend/app/pipeline/controller.py:129-146 | stages 5-6 succeed if and only if nothing was selected or the cut, the silence generation (when needed) and the concat succeed; the result then holds one clip per span and the reel exactly when there are clips |
| Controller.FinalSucceeds | backend/app/pipeline/controller.py:120-146 | stages 4-6 succeed if and only if the two conditions above hold, with the same result |
| Controller.EarlySteps | backend/app/pipeline/controller.py:102-118 | a rejected duration stops after the probe with nothing persisted; a failed normalization stops after it with one snapshot; otherwise transcription decides, with two or three snapshots, and runs only for a non-empty stem |
| Controller.RunSteps | backend/app/pipeline/controller.py:100-146 | a run on an existing input is stages 1-3 and, only if they succeed, stages 4-6 on the sentences they produced |
| Controller.SnapshotsFollowStages | backend/app/pipeline/controller.py:102-118 | the k-th snapshot is written exactly when the first k stages succeed, at most three are written, and a successful run writes all three |
| Controller.RejectedAudioStopsRun | backend/app/pipeline/controller.py:102-105 | audio the duration check rejects raises that failure, persists nothing and runs nothing after the probe |
| Controller.SuccessfulRunCalls | backend/app/pipeline/controller.py:100-146 | a successful run invokes, in order, ffprobe, the normalization, the speech model, the scorer with the tone's query, and, unless nothing was selected, the cut, the silence generation when the file is absent, and the concat over all clips |
| Controller.CleanupSparesOutput | backend/app/pipeline/controller.py:33-41 | the output directory, the reel and the silence file are outside every cleaned directory |
| Controller.CleanupRemovesClips | backend/app/pipeline/controller.py:33-41 | every clip lies in a cleaned directory |
| Controller.CleanRunLeavesReel | backend/app/pipeline/controller.py:33-41 | for a separator-free id and a non-empty stem, cleaning up after a run removes everything the run created except the reel and the silence file |
| Controller.RunLeavesNoWork | backend/app/pipeline/controller.py:33-41 | after the cleanup the reel survives when there are clips, no clip survives, and nothing remains in a cleaned directory |
| Controller.PipelineController.constructor | backend/app/pipeline/controller.py:48-52 | a new controller has an empty store |
| Controller.PipelineController.RunPipeline | backend/app/pipeline/controller.py:54-146 | the store is reset first and then holds exactly the snapshots of the stages that succeeded. The result is `RunResult` of the environment (missing input first, then the first stage to fail, else the output `RunSucceeds` describes). The calls are `RunCalls`. A missing input changes no file; a failure only adds files; a success leaves the files before plus the run's files minus the cleaned directories |
| Controller.PipelineController.RunStages | backend/app/pipeline/controller.py:100-146 | the same on an input that exists: stages 1-3, then, if they succeeded, stages 4-7 |
| Controller.PipelineController.RunPersistedStages | backend/app/pipeline/controller.py:102-118 | validate, normalize and transcribe persist one snapshot each as they succeed; the outcome is the first failure or the grouped sentences; the calls are those stages 1-3 make; success adds the normalized and transcript files |
| Controller.PipelineController.ValidateAndNormalize | backend/app/pipeline/controller.py:102-111 | a rejected duration: its failure, no snapshot, only the probe. A failed normalization: `NormalizationFailed`, the first snapshot, probe and normalization. Otherwise both snapshots and the normalized file |
| Controller.PipelineController.ValidateStep | backend/app/pipeline/controller.py:102-105 | probes once; succeeds if and only if the duration check does, and then persists the `audio_validated` snapshot; a failure is the duration check's own |
| Controller.PipelineController.NormalizeStep | backend/app/pipeline/controller.py:107-111 | normalizes once; success adds the normalized file and persists the `audio_normalized` snapshot, failure writes nothing |
| Controller.PipelineController.TranscribeStep | backend/app/pipeline/controller.py:113-118 | succeeds if and only if the stem is non-empty and the model gave a transcript, and then returns the grouped sentences, adds the transcript file and persists the `transcription_done` snapshot; the model runs exactly when the stem is non-empty |
| Controller.PipelineController.RunFinalStages | backend/app/pipeline/controller.py:120-146 | stages 4-7 give `FinalOutcome` with the calls `FinalCalls`; a failure only adds files, a success leaves the run's files minus the cleaned directories |
| Controller.PipelineController.RunReelStages | backend/app/pipeline/controller.py:129-146 | stages 5-7 give `ReelOutcome` with the calls `ReelCalls` |
| Controller.PipelineController.StitchAndClean | backend/app/pipeline/controller.py:135-146 | a stitching failure is raised without cleanup; otherwise the cleanup runs and the output holds the id, the reel and the clips |
| Controller.PipelineController.SelectStep | backend/app/pipeline/controller.py:120-127 | the selection is `SelectOutcome` (see `SelectSucceeds`); the scorer is called once for a known tone; the selection file is added exactly on success |
| Controller.PipelineController.CutStep | backend/app/pipeline/controller.py:129-133 | cutting gives `CutOutcome`: `[]` for nothing selected, the cut's failure, or one clip path per span, which are added |
| Controller.PipelineController.StitchStep | backend/app/pipeline/controller.py:135-136 | stitching gives `StitchOutcome`: `None` for no clips, else the silence generation's failure when the file is absent, else the concat's failure, else `OUT_FILE`, which then exists; files are only added |
| Controller.PipelineController.CleanupStep | backend/app/pipeline/controller.py:138-139 | exactly the files beneath the cleaned directories are removed: the reel is kept, every clip is gone, and nothing runs |
| Routes.SanitizeChar | backend/app/api/routes.py:40 | the replacement is always in `[a-z0-9._-]` and leaves such characters alone |
| Routes.ReplaceUnsafe | backend/app/api/routes.py:40 | each character is replaced by exactly one character |
| Routes.SanitizeFilename | backend/app/api/routes.py:28-41 | the sanitized name is as long as the stripped name (ASCII-only lowercase, see "Left out"), and every character is in `[a-z0-9._-]` |
| Routes.SanitizeCharwise | backend/app/api/routes.py:39-40 | character k is the lowercased stripped character k if that is safe, else `_` |
| Routes.SanitizedIsPlain | backend/app/api/routes.py:39-41 | a sanitized name holds no separator and no whitespace |
| Routes.SanitizeIdempotent | backend/app/api/routes.py:39-41 | sanitizing a sanitized name returns it unchanged |
| Routes.StripKeepsTail | backend/app/api/routes.py:39 | a tail of the name with no whitespace at either end is still the tail after `strip()` |
| Routes.SanitizeKeepsTail | backend/app/api/routes.py:39-40 | a stripped tail whose lowercase form is safe appears lowercased at the end of the sanitized name |
| Routes.AllowedShape | backend/app/api/routes.py:25 | each allowed extension is a dot followed by lower-case letters or digits |
| Routes.SanitizedKeepsExtension | backend/app/api/routes.py:82-98 | an accepted upload keeps its extension, lowercased, at the end of its sanitized name |
| Routes.UploadPathInInputDir | backend/app/api/routes.py:94-99 | with a separator-free id, the upload is stored at `RUNTIME_DATA_INPUT/{id}/{sanitized name}`: a non-empty name that is the file's base name, beneath the input directory and outside every directory cleared before the upload |
| Routes.JoinedUpload | backend/app/api/routes.py:94-99 | joining a plain id and a plain name onto the input directory gives `input/{id}/{name}` |
| Routes.UploadAudio | backend/app/api/routes.py:78-120 | a missing or empty name gives 400 "No filename provided", and an extension not allowed gives 400 "Unsupported file type: {ext}"; both come before any cleanup and change nothing. Otherwise the earlier runs' directories are cleared, and an upload not found after saving gives 500 with the controller untouched. Otherwise the pipeline runs on `RUNTIME_DATA_INPUT/{id}/{sanitized name}` with the requested tone: the store holds the reset and that run's snapshots, the calls are that run's, its failure escapes, and the answer is accepted, with the id and tone, if and only if the run succeeds |
| Routes.RunUpload | backend/app/api/routes.py:108-120 | the run on the stored upload and the answer built from its result |
| Routes.RunAnswer | backend/app/api/routes.py:108-120 | the answer is accepted if and only if the run returned a result |
| Routes.AcceptedRun | backend/app/api/routes.py:108-120 | an accepted answer carries the run's id, the reel exactly when there are clips, the reel still exists, and the upload is gone |
| Routes.UploadSwept | backend/app/pipeline/controller.py:33-41 | after a successful run the stored upload is gone too |

## Left out

- The speech model and the relevance scorer are not run. Their output or error is an input, and the scorer's result is a list of scores that `zip` pairs with the sentences.
- ffmpeg and ffprobe are not run. Each run is an input outcome: success, or failure carrying stderr. A failed run is taken to leave no output file.
- The normalization stage (`normalize.py`) is one such outcome.
- Python float formatting in the filter graph is a parameter `fmt`.
- Times are exact reals. Results that depend on IEEE double rounding near `MERGE_GAP` are not modelled.
- Parsing ffprobe's output as a float is an input: the parsed number, or none.
- `MAX_AUDIO_DURATION_SECONDS` comes from `config/limits.py`, which is not part of this model. It is a parameter.
- `state_manager.py` is not part of this model. The store is the sequence of reset and full-snapshot write calls it receives; its file format and the recovery module are left out.
- File contents, JSON documents and `makedirs` are left out. Files are a set of paths.
- `run_sentence_selection` reads the sentences from the transcript file. The model passes the sentences it wrote directly.
- `save_upload_file` is reduced to a flag saying whether the file exists afterwards.
- The `uuid4` pipeline id is a parameter.
- `mkstemp` picks a fresh `/tmp` name; which name it picks is not modelled.
- Logging and the GPU memory release are left out.
- Concurrency is left out: requests share one controller and one state slot. The model assumes one request at a time.
- Run failures are `Failure` values. They are returned instead of raised as exceptions.
- Text.LowerChar lowercases only ASCII letters. Python's `lower()` also lowercases other letters. The Kelvin sign U+212A becomes `k`, so the source sanitises it to `k` where the model gives `_`. U+0130 becomes two code points, `i` and U+0307, so the source sanitises it to `i_` where the model gives `_`. Other non-ASCII letters become `_` either way.
- Text.Lower: keeping the length holds for the model's ASCII-only lowercase; Python's `lower()` can lengthen a string (U+0130 above).
- Routes.SanitizeFilename: "as long as the stripped name" holds for the model's ASCII-only lowercase; the source's name can be longer when it holds U+0130.
- `SentenceSelection.MergeCloseSegments` builds new spans. The source updates `prev["end"]` and `prev["text"]` in place, which also changes the caller's `selected` dictionaries. The model does not capture that aliasing, because nothing reads those dictionaries afterwards.
- `SentenceSelection.SortByStart` is specified by insertion-sort order on positions, not by an in-place sort.
- Controller.PipelineController.RunPipeline: the calls are stated for some name of the temporary concat list, since `mkstemp` chooses it; which name is not modelled.
- `Controller.PipelineController.StitchStep` picks the temporary list name before stitching, also when there are no clips. Picking a name creates no file in the model, so this is not observable.
- A non-text `audio_basename` artifact is read as missing.
- `Transcription.RunWhisperTranscription` keeps only the original file name, duration, language and sentences of the output document. The fixed model-info block is left out.
