/** The machine the pipeline runs on, reduced to what the core observes:
    which files exist, and the log of every external program or model the
    core invokes. What those programs do is not modelled; each caller
    receives their outcome as an input. */
module Runtime {
  import opened Paths

  /** One invocation of an external collaborator. */
  datatype ExternalCall =
    | Ffprobe(path: string)                         // duration probe
    | Normalize(input: string, output: string)      // ffmpeg re-encode to 16 kHz mono s16
    | Transcribe(audio: string)                     // speech model loaded and run
    | Score(query: string, candidates: seq<string>) // relevance scorer loaded and run
    | Ffmpeg(argv: seq<string>)                     // any other ffmpeg command line
    | FfmpegConcat(argv: seq<string>, listing: seq<string>) // ffmpeg reading a concat list with these lines

  /** The files that survive removing every directory of `dirs`
      (`shutil.rmtree` on each). */
  function RemoveTrees(files: set<string>, dirs: seq<string>): (r: set<string>)
    ensures r <= files
    ensures forall f :: f in files ==> (f in r <==> forall i :: 0 <= i < |dirs| ==> !UnderDir(f, dirs[i]))
  {
    set f | f in files && forall i :: 0 <= i < |dirs| ==> !UnderDir(f, dirs[i])
  }

  class Host {
    var files: set<string>
    var calls: seq<ExternalCall>

    constructor (existing: set<string>)
      ensures files == existing && calls == []
    {
      files := existing;
      calls := [];
    }

    /** Runs an external program or model: the call is logged and no file
        changes (callers add what a successful run creates). */
    method Invoke(call: ExternalCall)
      modifies this
      ensures calls == old(calls) + [call] && files == old(files)
    {
      calls := calls + [call];
    }

    /** `tempfile.mkstemp(suffix=suffix)`: the name of a new file in `/tmp`
        that does not exist yet. Which name the system picks is not
        modelled; this one is longer than every existing name. */
    method FreshTempName(suffix: string) returns (p: string)
      ensures p !in files && |p| >= 5 && p[..5] == "/tmp/"
    {
      var longest: nat := 0;
      var rest := files;
      while rest != {}
        invariant rest <= files
        invariant forall f :: f in files && f !in rest ==> |f| <= longest
        decreases rest
      {
        var f :| f in rest;
        if |f| > longest {
          longest := |f|;
        }
        rest := rest - {f};
      }
      p := "/tmp/" + seq(longest + 1, _ => 'x') + suffix;
      assert |p| > longest;
    }

    /** `shutil.rmtree(d, ignore_errors=True)` for each directory `d`. */
    method RemoveDirs(dirs: seq<string>)
      modifies this
      ensures files == RemoveTrees(old(files), dirs) && calls == old(calls)
    {
      files := RemoveTrees(files, dirs);
    }
  }
}
