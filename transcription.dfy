/** Transcription (backend/app/stages/transcription/whisper_stage.py): the
    speech model's raw segments are turned into sentences, and the stage
    records where it wrote the transcript. The speech model itself is an
    input: the segments it produced, or the error it raised. */
module Transcription {
  import opened Common
  import opened Text
  import opened Paths
  import opened Runtime
  import opened PipelineState

  /** A segment as the speech model reports it; `text` may be absent. */
  datatype RawSegment = RawSegment(start: real, end: real, text: Option<string>)

  /** `seg.get("text", "").strip()`: a missing text counts as empty. */
  function StrippedText(seg: RawSegment): (t: string)
    ensures IsStripped(t)
  {
    match seg.text
    case None => ""
    case Some(s) => Strip(s)
  }

  /** The segment carries no words once surrounding whitespace is removed. */
  predicate Blank(seg: RawSegment)
  {
    StrippedText(seg) == ""
  }

  /** The sentence a kept segment becomes. */
  function ToSentence(seg: RawSegment): Span
  {
    Span(seg.start, seg.end, StrippedText(seg))
  }

  /** `_group_segments_to_sentences(segments)`: drop blank segments, keep
      start, end and the trimmed text of the others, in order. */
  function GroupSegmentsToSentences(segs: seq<RawSegment>): (r: seq<Span>)
    ensures |r| <= |segs|
    ensures forall k :: 0 <= k < |r| ==> r[k].text != "" && IsStripped(r[k].text)
  {
    if segs == [] then []
    else
      var init := GroupSegmentsToSentences(segs[..|segs| - 1]);
      var last := segs[|segs| - 1];
      if Blank(last) then init else init + [ToSentence(last)]
  }

  /** `idx` lists strictly increasing positions below `n`. */
  predicate Increasing(idx: seq<nat>, n: nat)
  {
    (forall k :: 0 <= k < |idx| ==> idx[k] < n) &&
    (forall a, b :: 0 <= a < b < |idx| ==> idx[a] < idx[b])
  }

  /** Which segments are blank, position by position. */
  function BlankFlags(segs: seq<RawSegment>): (flags: seq<bool>)
    ensures |flags| == |segs| && forall i :: 0 <= i < |segs| ==> flags[i] == Blank(segs[i])
  {
    seq(|segs|, i requires 0 <= i < |segs| => Blank(segs[i]))
  }

  /** The positions whose flag is down, in order. */
  function Unflagged(flags: seq<bool>): seq<nat>
  {
    if flags == [] then []
    else
      var n := |flags| - 1;
      var prev := Unflagged(flags[..n]);
      if flags[n] then prev else prev + [n]
  }

  lemma {:induction false} UnflaggedExact(flags: seq<bool>)
    ensures Increasing(Unflagged(flags), |flags|)
    ensures forall i :: 0 <= i < |flags| ==> (i in Unflagged(flags) <==> !flags[i])
  {
    if flags != [] {
      var n := |flags| - 1;
      var init := flags[..n];
      UnflaggedExact(init);
      KeptStep(Unflagged(init), n, !flags[n], Unflagged(flags));
      forall i | 0 <= i < n ensures i in Unflagged(flags) <==> !flags[i] {
        assert init[i] == flags[i];
      }
    }
  }

  /** Appending position `n` exactly when it is kept extends a membership
      fact from the first `n` positions to the first `n + 1`. */
  lemma KeptStep(prev: seq<nat>, n: nat, keep: bool, idx: seq<nat>)
    requires Increasing(prev, n)
    requires idx == if keep then prev + [n] else prev
    ensures Increasing(idx, n + 1)
    ensures forall i :: 0 <= i < n ==> (i in idx <==> i in prev)
    ensures n in idx <==> keep
  {
    if keep {
      assert idx[|prev|] == n;
    }
  }

  /** The positions of the segments the grouping keeps, in order. */
  function KeptPositions(segs: seq<RawSegment>): seq<nat>
  {
    Unflagged(BlankFlags(segs))
  }

  /** The sentences are those of the kept positions, in order. */
  lemma {:induction false} KeptPositionsMap(segs: seq<RawSegment>)
    ensures var r := GroupSegmentsToSentences(segs);
      var idx := KeptPositions(segs);
      && |idx| == |r|
      && forall k :: 0 <= k < |r| ==> idx[k] < |segs| && r[k] == ToSentence(segs[idx[k]])
  {
    if segs != [] {
      var n := |segs| - 1;
      var init := segs[..n];
      KeptPositionsMap(init);
      UnflaggedExact(BlankFlags(init));
      assert BlankFlags(segs)[..n] == BlankFlags(init);
      var r0 := GroupSegmentsToSentences(init);
      var prev := KeptPositions(init);
      var idx := KeptPositions(segs);
      var blank := Blank(segs[n]);
      assert idx == if blank then prev else prev + [n];
      var r := GroupSegmentsToSentences(segs);
      assert r == if blank then r0 else r0 + [ToSentence(segs[n])];
      forall k | 0 <= k < |r| ensures idx[k] < |segs| && r[k] == ToSentence(segs[idx[k]]) {
        if k < |r0| {
          assert r[k] == r0[k] && idx[k] == prev[k];
          assert init[prev[k]] == segs[prev[k]];
        }
      }
    }
  }

  /** The grouping is exactly a filter-map: the output is the sentences of
      the non-blank segments, at increasing positions, and a position is
      used if and only if its segment is not blank. */
  lemma GroupIsFilterMap(segs: seq<RawSegment>)
    ensures var r := GroupSegmentsToSentences(segs);
      var idx := KeptPositions(segs);
      && |idx| == |r|
      && Increasing(idx, |segs|)
      && (forall k :: 0 <= k < |r| ==> r[k] == ToSentence(segs[idx[k]]))
      && (forall i :: 0 <= i < |segs| ==> (i in idx <==> !Blank(segs[i])))
  {
    UnflaggedExact(BlankFlags(segs));
    KeptPositionsMap(segs);
  }

  /** Grouping distributes over concatenation of segment lists. */
  lemma {:induction false} GroupAppend(a: seq<RawSegment>, b: seq<RawSegment>)
    ensures GroupSegmentsToSentences(a + b) == GroupSegmentsToSentences(a) + GroupSegmentsToSentences(b)
  {
    if b != [] {
      var n := |b| - 1;
      assert (a + b)[..|a + b| - 1] == a + b[..n];
      assert (a + b)[|a + b| - 1] == b[n];
      GroupAppend(a, b[..n]);
    } else {
      assert a + b == a;
    }
  }

  /** A sentence fed back as a segment. */
  function AsSegment(s: Span): RawSegment
  {
    RawSegment(s.start, s.end, Some(s.text))
  }

  function AsSegments(ss: seq<Span>): (r: seq<RawSegment>)
    ensures |r| == |ss| && forall k :: 0 <= k < |ss| ==> r[k] == AsSegment(ss[k])
  {
    seq(|ss|, k requires 0 <= k < |ss| => AsSegment(ss[k]))
  }

  /** Grouping its own output changes nothing: every sentence is already
      trimmed and non-empty. */
  lemma {:induction false} GroupIdempotent(segs: seq<RawSegment>)
    ensures var r := GroupSegmentsToSentences(segs);
      GroupSegmentsToSentences(AsSegments(r)) == r
  {
    var r := GroupSegmentsToSentences(segs);
    GroupOfStripped(r);
  }

  lemma {:induction false} GroupOfStripped(ss: seq<Span>)
    requires forall k :: 0 <= k < |ss| ==> ss[k].text != "" && IsStripped(ss[k].text)
    ensures GroupSegmentsToSentences(AsSegments(ss)) == ss
  {
    if ss != [] {
      var n := |ss| - 1;
      var segs := AsSegments(ss);
      assert segs[..n] == AsSegments(ss[..n]);
      GroupOfStripped(ss[..n]);
      SentenceRoundTrip(ss[n]);
      assert segs[n] == AsSegment(ss[n]);
      TakeLast(ss);
    }
  }

  /** A trimmed, non-empty sentence fed back as a segment is kept as is. */
  lemma SentenceRoundTrip(s: Span)
    requires s.text != "" && IsStripped(s.text)
    ensures !Blank(AsSegment(s)) && ToSentence(AsSegment(s)) == s
  {
    StripStripped(s.text);
  }

  lemma TakeLast<T>(s: seq<T>)
    requires s != []
    ensures s == s[..|s| - 1] + [s[|s| - 1]]
  {
  }

  /** What the speech model produced for the audio, or the error it raised. */
  datatype TranscriptOutcome =
    | Transcript(segments: seq<RawSegment>, duration: real, language: string)
    | TranscriptError(cause: string)

  /** The document written to the transcript file and returned. */
  datatype WhisperOutput = WhisperOutput(originalFilename: string, durationSeconds: real,
                                         language: string, sentences: seq<Span>)

  /** The `audio_basename` artifact; a missing or non-text value reads as
      the empty string, which the stage treats as missing. */
  function AudioBasename(artifacts: map<string, Artifact>): string
  {
    if "audio_basename" in artifacts && artifacts["audio_basename"].Str? then artifacts["audio_basename"].s
    else ""
  }

  /** `/runtime/state/{audio_basename}_whisper.json`. */
  function WhisperOutputPath(basename: string): string
  {
    PathJoin(StateDir, basename + "_whisper.json")
  }

  /** `run_whisper_transcription(audio_path, state)`. */
  method RunWhisperTranscription(state: RunState, host: Host, audioPath: string, outcome: TranscriptOutcome)
    returns (r: Result<WhisperOutput, Failure>)
    modifies state, host
    ensures AudioBasename(old(state.artifacts)) == "" ==>
      r == Err(AudioBasenameMissing) && unchanged(state, host)
    ensures AudioBasename(old(state.artifacts)) != "" ==>
      host.calls == old(host.calls) + [Transcribe(audioPath)]
    ensures AudioBasename(old(state.artifacts)) != "" && outcome.TranscriptError? ==>
      r == Err(TranscriptionFailed(outcome.cause)) && unchanged(state) && host.files == old(host.files)
    ensures AudioBasename(old(state.artifacts)) != "" && outcome.Transcript? ==>
      var path := WhisperOutputPath(AudioBasename(old(state.artifacts)));
      && r == Ok(WhisperOutput(BaseName(audioPath), outcome.duration, outcome.language,
                               GroupSegmentsToSentences(outcome.segments)))
      && state.artifacts == old(state.artifacts)["whisper_output" := Str(path)]
      && state.currentStage == TranscriptionDone
      && host.files == old(host.files) + {path}
  {
    var basename := AudioBasename(state.artifacts);
    if basename == "" {
      return Err(AudioBasenameMissing);
    }
    var outPath := WhisperOutputPath(basename);
    host.calls := host.calls + [Transcribe(audioPath)];
    match outcome {
      case TranscriptError(cause) =>
        return Err(TranscriptionFailed(cause));
      case Transcript(segments, duration, language) =>
        var sentences := GroupSegmentsToSentences(segments);
        var out := WhisperOutput(BaseName(audioPath), duration, language, sentences);
        host.files := host.files + {outPath};
        state.artifacts := state.artifacts["whisper_output" := Str(outPath)];
        state.currentStage := TranscriptionDone;
        return Ok(out);
    }
  }

  /** The transcript file always lands in the state directory when the
      basename has no separator. */
  lemma WhisperPathInStateDir(basename: string)
    requires basename != "" && '/' !in basename
    ensures UnderDir(WhisperOutputPath(basename), StateDir)
  {
    var p := WhisperOutputPath(basename);
    assert p == StateDir + "/" + basename + "_whisper.json";
    assert p[..|StateDir| + 1] == StateDir + "/";
  }
}
