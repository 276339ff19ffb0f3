/** Stitching (backend/app/stages/audio_stitching/stitch.py): the clips are
    joined, with one second of silence between neighbours, by ffmpeg's concat
    demuxer reading a temporary list file. The silence file is generated once
    and then reused. ffmpeg's runs are input outcomes. */
module Stitching {
  import opened Common
  import opened Text
  import opened Paths
  import opened Runtime

  /** `OUT_FILE`: the one place the reel is written. */
  const OutFile := "/runtime/data/output_podcast/final.wav"
  const SilenceFile := "/runtime/data/output_podcast/silence_1s.wav"
  /** `os.path.sep` on the POSIX systems the service runs on. */
  const OsSep: char := '/'

  /** The ffmpeg command that writes one second of 16 kHz mono silence. */
  const SilenceCommand: seq<string> :=
    ["ffmpeg", "-y", "-f", "lavfi", "-i", "anullsrc=r=16000:cl=mono", "-t", "1", SilenceFile]

  /** The concat-demuxer run over the list file `listPath`. */
  function ConcatCommand(listPath: string): seq<string>
  {
    ["ffmpeg", "-y", "-f", "concat", "-safe", "0", "-i", listPath, "-c:a", "pcm_s16le", OutFile]
  }

  lemma OutputLocations()
    ensures OutFile == PathJoin(OutputDir, "final.wav")
    ensures SilenceFile == PathJoin(OutputDir, "silence_1s.wav")
    ensures UnderDir(OutFile, OutputDir) && UnderDir(SilenceFile, OutputDir)
  {
    assert OutFile[..|OutputDir| + 1] == OutputDir + "/";
    assert SilenceFile[..|OutputDir| + 1] == OutputDir + "/";
  }

  // ---------------------------------------------------------------------
  // Quoting for the concat list
  // ---------------------------------------------------------------------

  /** The four characters `'\''` that stand for one quote inside a
      single-quoted concat-list path. */
  const EscapedQuote: string := "'\\''"

  /** `s.replace("'", "'\\''")`. */
  function EscapeQuotes(s: string): (r: string)
    ensures |r| >= |s|
  {
    if s == [] then []
    else (if s[0] == '\'' then EscapedQuote else [s[0]]) + EscapeQuotes(s[1..])
  }

  /** Reads an escaped path back: each `'\''` becomes one quote. */
  function UnescapeQuotes(t: string): string
  {
    if t == [] then []
    else if |t| >= 4 && t[..4] == EscapedQuote then "'" + UnescapeQuotes(t[4..])
    else [t[0]] + UnescapeQuotes(t[1..])
  }

  /** Escaping loses nothing: the original path is recovered from it. */
  lemma {:induction false} EscapeRoundTrip(s: string)
    ensures UnescapeQuotes(EscapeQuotes(s)) == s
  {
    if s != [] {
      var rest := EscapeQuotes(s[1..]);
      EscapeRoundTrip(s[1..]);
      if s[0] == '\'' {
        assert (EscapedQuote + rest)[..4] == EscapedQuote;
        assert (EscapedQuote + rest)[4..] == rest;
      } else {
        assert ([s[0]] + rest)[1..] == rest;
      }
      assert s == [s[0]] + s[1..];
    }
  }

  /** A path without quotes is left as it is. */
  lemma {:induction false} EscapeNoQuote(s: string)
    requires '\'' !in s
    ensures EscapeQuotes(s) == s
  {
    if s != [] {
      EscapeNoQuote(s[1..]);
      assert s == [s[0]] + s[1..];
    }
  }

  /** The silence path holds no quote, so writing it unescaped is safe. */
  lemma SilenceNeedsNoEscape()
    ensures EscapeQuotes(ReplaceChar(SilenceFile, OsSep, '/')) == SilenceFile
  {
    assert ReplaceChar(SilenceFile, OsSep, '/') == SilenceFile;
    EscapeNoQuote(SilenceFile);
  }

  /** `file '<p>'` for clip path `p`: separators normalised, quotes escaped. */
  function ClipLine(clip: string): string
  {
    "file '" + EscapeQuotes(ReplaceChar(clip, OsSep, '/')) + "'\n"
  }

  /** The silence entry: separators normalised only. */
  const SilenceLine: string := "file '" + ReplaceChar(SilenceFile, OsSep, '/') + "'\n"

  /** The lines written for the first `i` clips: each clip's line, then the
      silence line unless it was the last clip. */
  function ListPrefix(clips: seq<string>, i: nat): (lines: seq<string>)
    requires i <= |clips|
  {
    if i == 0 then []
    else ListPrefix(clips, i - 1) + [ClipLine(clips[i - 1])]
         + (if i - 1 < |clips| - 1 then [SilenceLine] else [])
  }

  /** Before the last clip, `i` clips have written exactly their own line
      and one silence line each, alternating. */
  lemma {:induction false} ListPrefixShape(clips: seq<string>, i: nat)
    requires i < |clips|
    ensures var lines := ListPrefix(clips, i);
      && |lines| == 2 * i
      && (forall c :: 0 <= c < i ==> lines[2 * c] == ClipLine(clips[c]))
      && (forall c :: 0 <= c < i ==> lines[2 * c + 1] == SilenceLine)
  {
    if i > 0 {
      ListPrefixShape(clips, i - 1);
      var prev := ListPrefix(clips, i - 1);
      var lines := ListPrefix(clips, i);
      AppendPair(prev, ClipLine(clips[i - 1]), SilenceLine, lines);
    }
  }

  lemma AppendPair<T>(prev: seq<T>, x: T, y: T, s: seq<T>)
    requires s == prev + [x] + [y]
    ensures |s| == |prev| + 2 && s[|prev|] == x && s[|prev| + 1] == y
    ensures forall k :: 0 <= k < |prev| ==> s[k] == prev[k]
  {
  }

  /** The concat list of N >= 1 clips has 2N - 1 lines: clip c at line 2c,
      and the silence at line 2c + 1 for every clip but the last, so a clip
      comes first and last and silence only ever sits between two clips. */
  lemma ConcatListShape(clips: seq<string>)
    requires clips != []
    ensures var lines := ListPrefix(clips, |clips|);
      && |lines| == 2 * |clips| - 1
      && (forall c :: 0 <= c < |clips| ==> lines[2 * c] == ClipLine(clips[c]))
      && (forall c :: 0 <= c < |clips| - 1 ==> lines[2 * c + 1] == SilenceLine)
      && lines[0] == ClipLine(clips[0]) && lines[|lines| - 1] == ClipLine(clips[|clips| - 1])
  {
    var n := |clips| - 1;
    ListPrefixShape(clips, n);
    var prev := ListPrefix(clips, n);
    var lines := ListPrefix(clips, |clips|);
    AppendLast(prev, ClipLine(clips[n]), lines);
    forall c | 0 <= c < |clips| ensures lines[2 * c] == ClipLine(clips[c]) {
      if c < n {
        assert lines[2 * c] == prev[2 * c];
      }
    }
    forall c | 0 <= c < n ensures lines[2 * c + 1] == SilenceLine {
      assert lines[2 * c + 1] == prev[2 * c + 1];
    }
  }

  lemma AppendLast<T>(prev: seq<T>, x: T, s: seq<T>)
    requires s == prev + [x] + []
    ensures |s| == |prev| + 1 && s[|prev|] == x
    ensures forall k :: 0 <= k < |prev| ==> s[k] == prev[k]
  {
  }

  /** The loop that writes the concat list, one line per `f.write`. */
  method WriteConcatList(clips: seq<string>) returns (lines: seq<string>)
    ensures lines == ListPrefix(clips, |clips|)
  {
    lines := [];
    for i := 0 to |clips|
      invariant lines == ListPrefix(clips, i)
    {
      var safeClip := EscapeQuotes(ReplaceChar(clips[i], OsSep, '/'));
      lines := lines + ["file '" + safeClip + "'\n"];
      if i < |clips| - 1 {
        var safeSilence := ReplaceChar(SilenceFile, OsSep, '/');
        lines := lines + ["file '" + safeSilence + "'\n"];
      }
    }
  }

  // ---------------------------------------------------------------------
  // The stage
  // ---------------------------------------------------------------------

  /** `_ensure_silence()`: generate the silence file only when it is absent. */
  method EnsureSilence(host: Host, outcome: ToolOutcome) returns (r: Result<(), Failure>)
    modifies host
    ensures SilenceFile in old(host.files) ==> r == Ok(()) && unchanged(host)
    ensures SilenceFile !in old(host.files) ==> host.calls == old(host.calls) + [Ffmpeg(SilenceCommand)]
    ensures SilenceFile !in old(host.files) && outcome.Succeeded? ==>
      r == Ok(()) && host.files == old(host.files) + {SilenceFile}
    ensures SilenceFile !in old(host.files) && outcome.Failed? ==>
      r == Err(SilenceFailed(outcome.stderr)) && host.files == old(host.files)
    ensures r.Ok? ==> SilenceFile in host.files
  {
    if SilenceFile in host.files {
      return Ok(());
    }
    host.calls := host.calls + [Ffmpeg(SilenceCommand)];
    if outcome.Failed? {
      return Err(SilenceFailed(outcome.stderr));
    }
    host.files := host.files + {SilenceFile};
    r := Ok(());
  }

  /** `stitch_audio(clips)`. `listPath` is the fresh file `mkstemp` creates;
      `silenceRun` and `concatRun` are what the two ffmpeg runs do. */
  method StitchAudio(host: Host, clips: seq<string>, listPath: string,
                     silenceRun: ToolOutcome, concatRun: ToolOutcome)
    returns (r: Result<Option<string>, Failure>)
    modifies host
    requires listPath !in host.files && listPath != OutFile && listPath != SilenceFile
    ensures clips == [] ==> r == Ok(None) && unchanged(host)
    ensures listPath !in host.files
    ensures clips != [] ==>
      var silenceCalls := if SilenceFile in old(host.files) then [] else [Ffmpeg(SilenceCommand)];
      var silenceFiles := old(host.files) + {SilenceFile};
      if SilenceFile !in old(host.files) && silenceRun.Failed? then
        r == Err(SilenceFailed(silenceRun.stderr))
        && host.calls == old(host.calls) + silenceCalls && host.files == old(host.files)
      else
        && host.calls == old(host.calls) + silenceCalls
                         + [FfmpegConcat(ConcatCommand(listPath), ListPrefix(clips, |clips|))]
        && (concatRun.Failed? ==> r == Err(StitchFailed(concatRun.stderr)) && host.files == silenceFiles)
        && (concatRun.Succeeded? ==> r == Ok(Some(OutFile)) && host.files == silenceFiles + {OutFile})
  {
    if clips == [] {
      return Ok(None);
    }
    var s := EnsureSilence(host, silenceRun);
    if s.Err? {
      return Err(s.error);
    }
    host.files := host.files + {listPath};
    var lines := WriteConcatList(clips);
    host.calls := host.calls + [FfmpegConcat(ConcatCommand(listPath), lines)];
    if concatRun.Failed? {
      host.files := host.files - {listPath};
      return Err(StitchFailed(concatRun.stderr));
    }
    host.files := host.files + {OutFile};
    host.files := host.files - {listPath};
    r := Ok(Some(OutFile));
  }
}
