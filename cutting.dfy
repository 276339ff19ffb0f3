/** Clip cutting (backend/app/stages/audio_cutting/cut.py): each selected
    span becomes a padded, faded window of the normalized audio, and one
    ffmpeg command line cuts them all. How ffmpeg renders a Python float is
    a parameter `fmt`; the ffmpeg run itself is an input outcome. */
module Cutting {
  import opened Common
  import opened Text
  import opened Paths
  import opened Runtime

  /** Seconds of audio kept before the start and after the end of a span. */
  const PadStart: real := 0.47
  const PadEnd: real := 0.47
  /** Length in seconds of the fade-in and of the fade-out. */
  const FadeDuration: real := 0.8

  /** The cut window of one selection: where it starts and ends in the
      source audio, its length, and where (relative to the clip) the
      fade-out starts. */
  datatype Window = Window(start: real, end: real, duration: real, fadeOutStart: real)

  /** The padded window of span `seg`. */
  function ClipWindow(seg: Span): (w: Window)
    ensures w.start >= 0.0 && w.fadeOutStart >= 0.0
    ensures seg.start >= PadStart ==> w.start == seg.start - PadStart
    ensures seg.start < PadStart ==> w.start == 0.0
    ensures w.end == seg.end + PadEnd && w.duration == w.end - w.start
    ensures w.duration >= FadeDuration ==> w.fadeOutStart + FadeDuration == w.duration
    ensures w.duration < FadeDuration ==> w.fadeOutStart == 0.0
  {
    var start := Max(0.0, seg.start - PadStart);
    var end := seg.end + PadEnd;
    var duration := end - start;
    Window(start, end, duration, Max(0.0, duration - FadeDuration))
  }

  /** The window never cuts into the sentence: it starts at or before the
      sentence and ends strictly after it. */
  lemma WindowCoversSentence(seg: Span)
    requires seg.start >= 0.0
    ensures ClipWindow(seg).start <= seg.start && seg.end < ClipWindow(seg).end
  {
  }

  /** A sentence from 5.0 s to 7.0 s. */
  lemma WindowExample()
    ensures ClipWindow(Span(5.0, 7.0, "")) == Window(4.53, 7.47, 2.94, 2.14)
  {
  }

  /** `[a{i}]`, the output label of clip `i`. */
  function Label(i: nat): string
  {
    "[a" + NatToString(i) + "]"
  }

  /** `os.path.join(CLIP_DIR, f"clip_{i}.wav")`; `CLIP_DIR` is the same
      directory as `RUNTIME_DATA_CLIPS`. */
  function ClipPath(i: nat): string
  {
    PathJoin(ClipsDir, "clip_" + NatToString(i) + ".wav")
  }

  /** The filter-graph part that trims, re-times and fades clip `i`. */
  function FilterPart(i: nat, w: Window, fmt: real -> string): string
  {
    "[0:a]"
    + "atrim=start=" + fmt(w.start) + ":end=" + fmt(w.end) + ","
    + "asetpts=PTS-STARTPTS,"
    + "afade=t=in:st=0:d=" + fmt(FadeDuration) + ","
    + "afade=t=out:st=" + fmt(w.fadeOutStart) + ":d=" + fmt(FadeDuration)
    + Label(i)
  }

  /** One filter part per selection, in selection order. */
  function FilterParts(sels: seq<Span>, fmt: real -> string): (parts: seq<string>)
    ensures |parts| == |sels|
  {
    if sels == [] then []
    else FilterParts(sels[..|sels| - 1], fmt) + [FilterPart(|sels| - 1, ClipWindow(sels[|sels| - 1]), fmt)]
  }

  /** The clip paths of `n` selections. */
  function ClipPaths(n: nat): (paths: seq<string>)
    ensures |paths| == n
  {
    if n == 0 then [] else ClipPaths(n - 1) + [ClipPath(n - 1)]
  }

  /** `-map [a{i}] clip_i` for each of `n` clips. */
  function MapArgs(n: nat): (args: seq<string>)
    ensures |args| == 3 * n
  {
    if n == 0 then [] else MapArgs(n - 1) + ["-map", Label(n - 1), ClipPath(n - 1)]
  }

  /** The whole ffmpeg command line the stage runs. */
  function CutCommand(input: string, sels: seq<Span>, fmt: real -> string): seq<string>
  {
    ["ffmpeg", "-y", "-i", input, "-filter_complex", Join(";", FilterParts(sels, fmt))] + MapArgs(|sels|)
  }

  /** Builds the command and the clip list the way the source does: a loop
      that extends both, then the filter graph and its flag inserted at
      position 4. */
  method BuildCutCommand(input: string, selections: seq<Span>, fmt: real -> string)
    returns (command: seq<string>, clips: seq<string>)
    ensures command == CutCommand(input, selections, fmt)
    ensures clips == ClipPaths(|selections|)
  {
    var parts;
    command, parts, clips := CollectOutputs(input, selections, fmt);
    InsertAfterInput(input, MapArgs(|selections|), Join(";", parts), command);
    command := command[..4] + [Join(";", parts)] + command[4..];
    command := command[..4] + ["-filter_complex"] + command[4..];
  }

  /** The loop of `cut_audio`: per selection, its clip path, its filter part
      and its `-map` arguments, in selection order. */
  method CollectOutputs(input: string, selections: seq<Span>, fmt: real -> string)
    returns (command: seq<string>, parts: seq<string>, clips: seq<string>)
    ensures command == ["ffmpeg", "-y", "-i", input] + MapArgs(|selections|)
    ensures parts == FilterParts(selections, fmt)
    ensures clips == ClipPaths(|selections|)
  {
    command := ["ffmpeg", "-y", "-i", input];
    parts := [];
    clips := [];
    for i := 0 to |selections|
      invariant command == ["ffmpeg", "-y", "-i", input] + MapArgs(i)
      invariant parts == FilterParts(selections[..i], fmt)
      invariant clips == ClipPaths(i)
    {
      var outputPath := ClipPath(i);
      clips := clips + [outputPath];
      var w := ClipWindow(selections[i]);
      assert selections[..i + 1][..i] == selections[..i];
      parts := parts + [FilterPart(i, w, fmt)];
      command := command + ["-map", Label(i), outputPath];
    }
    assert selections[..|selections|] == selections;
  }

  /** Inserting the graph, then its flag, at position 4 puts both right
      after the input. */
  lemma InsertAfterInput(input: string, maps: seq<string>, graph: string, c: seq<string>)
    requires c == ["ffmpeg", "-y", "-i", input] + maps
    ensures var c1 := c[..4] + [graph] + c[4..];
      c1[..4] + ["-filter_complex"] + c1[4..] == ["ffmpeg", "-y", "-i", input, "-filter_complex", graph] + maps
  {
    assert c[..4] == ["ffmpeg", "-y", "-i", input] && c[4..] == maps;
    var c1 := c[..4] + [graph] + c[4..];
    assert c1[..4] == ["ffmpeg", "-y", "-i", input] && c1[4..] == [graph] + maps;
  }

  lemma {:induction false} ClipPathsAt(n: nat, i: nat)
    requires i < n
    ensures ClipPaths(n)[i] == ClipPath(i)
  {
    if i < n - 1 {
      ClipPathsAt(n - 1, i);
    }
  }

  lemma {:induction false} MapArgsAt(n: nat, i: nat)
    requires i < n
    ensures MapArgs(n)[3 * i] == "-map"
    ensures MapArgs(n)[3 * i + 1] == Label(i)
    ensures MapArgs(n)[3 * i + 2] == ClipPath(i)
  {
    if i < n - 1 {
      MapArgsAt(n - 1, i);
    }
  }

  lemma {:induction false} FilterPartsAt(sels: seq<Span>, fmt: real -> string, i: nat)
    requires i < |sels|
    ensures FilterParts(sels, fmt)[i] == FilterPart(i, ClipWindow(sels[i]), fmt)
  {
    var n := |sels| - 1;
    if i < n {
      FilterPartsAt(sels[..n], fmt, i);
    }
  }

  /** The exact layout of the command for N selections: the six fixed
      leading arguments, then `-map`, the label and the clip path of each
      clip in turn, 6 + 3N arguments in all. The clip list has the i-th
      clip path at position i. */
  lemma CutCommandLayout(input: string, sels: seq<Span>, fmt: real -> string)
    ensures var cmd := CutCommand(input, sels, fmt);
      && |cmd| == 6 + 3 * |sels|
      && cmd[..6] == ["ffmpeg", "-y", "-i", input, "-filter_complex", Join(";", FilterParts(sels, fmt))]
      && (forall i :: 0 <= i < |sels| ==>
            cmd[6 + 3 * i] == "-map" && cmd[7 + 3 * i] == Label(i) && cmd[8 + 3 * i] == ClipPath(i))
      && (forall i :: 0 <= i < |sels| ==> ClipPaths(|sels|)[i] == ClipPath(i))
  {
    var cmd := CutCommand(input, sels, fmt);
    forall i | 0 <= i < |sels|
      ensures cmd[6 + 3 * i] == "-map" && cmd[7 + 3 * i] == Label(i) && cmd[8 + 3 * i] == ClipPath(i)
      ensures ClipPaths(|sels|)[i] == ClipPath(i)
    {
      MapArgsAt(|sels|, i);
      ClipPathsAt(|sels|, i);
    }
  }

  /** Filter part i is the trim-and-fade of window i and ends with the
      label `[a{i}]` that the i-th `-map` selects. */
  lemma FilterPartLabelled(sels: seq<Span>, fmt: real -> string, i: nat)
    requires i < |sels|
    ensures var part := FilterParts(sels, fmt)[i];
      && part == FilterPart(i, ClipWindow(sels[i]), fmt)
      && |part| >= 17 + |Label(i)|
      && part[|part| - |Label(i)|..] == Label(i)
      && part[..17] == "[0:a]atrim=start="
  {
    FilterPartsAt(sels, fmt, i);
    var w := ClipWindow(sels[i]);
    var body := "[0:a]"
      + "atrim=start=" + fmt(w.start) + ":end=" + fmt(w.end) + ","
      + "asetpts=PTS-STARTPTS,"
      + "afade=t=in:st=0:d=" + fmt(FadeDuration) + ","
      + "afade=t=out:st=" + fmt(w.fadeOutStart) + ":d=" + fmt(FadeDuration);
    assert FilterPart(i, w, fmt) == body + Label(i);
    assert body[..17] == "[0:a]atrim=start=";
  }

  /** Distinct clips get distinct files, all inside the clip directory. */
  lemma ClipPathsDistinct(i: nat, j: nat)
    ensures UnderDir(ClipPath(i), ClipsDir)
    ensures ClipPath(i) == ClipPath(j) ==> i == j
  {
    var prefix := ClipsDir + "/clip_";
    var p := ClipPath(i);
    var q := ClipPath(j);
    assert p == prefix + NatToString(i) + ".wav";
    assert q == prefix + NatToString(j) + ".wav";
    assert p[..|ClipsDir| + 1] == ClipsDir + "/";
    if p == q {
      assert p[|prefix|..|p| - 4] == NatToString(i);
      assert q[|prefix|..|q| - 4] == NatToString(j);
      NatToStringInjective(i, j);
    }
  }

  /** `cut_audio(input_path, selections)`. */
  method CutAudio(host: Host, input: string, selections: seq<Span>, fmt: real -> string, outcome: ToolOutcome)
    returns (r: Result<seq<string>, Failure>)
    modifies host
    ensures selections == [] ==> r == Ok([]) && unchanged(host)
    ensures selections != [] ==>
      host.calls == old(host.calls) + [Ffmpeg(CutCommand(input, selections, fmt))]
    ensures selections != [] && outcome.Failed? ==>
      r == Err(CutFailed(outcome.stderr)) && host.files == old(host.files)
    ensures selections != [] && outcome.Succeeded? ==>
      var clips := ClipPaths(|selections|);
      && r == Ok(clips)
      && host.files == old(host.files) + set i | 0 <= i < |clips| :: clips[i]
    ensures old(host.files) <= host.files
  {
    if selections == [] {
      return Ok([]);
    }
    var command, clips := BuildCutCommand(input, selections, fmt);
    host.calls := host.calls + [Ffmpeg(command)];
    if outcome.Failed? {
      return Err(CutFailed(outcome.stderr));
    }
    host.files := host.files + set i | 0 <= i < |clips| :: clips[i];
    r := Ok(clips);
  }
}
