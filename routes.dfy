/** The upload endpoint (backend/app/api/routes.py): it rejects a missing
    filename and an unsupported extension before touching anything, clears
    the working directories of earlier runs, stores the upload under a fresh
    pipeline id with a sanitized name, and runs the pipeline on it. The
    pipeline id (`uuid4`) and whether saving the upload produced the file
    are inputs. */
module Routes {
  import opened Common
  import opened Text
  import opened Paths
  import opened Runtime
  import opened Cutting
  import opened Stitching
  import opened Controller

  /** `ALLOWED_EXTENSIONS`. */
  const AllowedExtensions: set<string> := {".wav", ".mp3", ".m4a", ".flac", ".ogg"}

  /** The directories `_clean_runtime_before_upload` clears: every working
      directory except the input one. */
  const PreUploadDirs: seq<string> := [NormalizedDir, ClipsDir, SelectionDir, StateDir]

  /** A character the pattern `[^a-z0-9._-]` leaves alone. */
  predicate SafeChar(c: char)
  {
    ('a' <= c <= 'z') || ('0' <= c <= '9') || c == '.' || c == '_' || c == '-'
  }

  function SanitizeChar(c: char): (d: char)
    ensures SafeChar(d)
    ensures SafeChar(c) ==> d == c
  {
    if SafeChar(c) then c else '_'
  }

  /** `re.sub(r"[^a-z0-9._-]", "_", s)`. */
  function ReplaceUnsafe(s: string): (r: string)
    ensures |r| == |s| && forall k :: 0 <= k < |s| ==> r[k] == SanitizeChar(s[k])
  {
    seq(|s|, k requires 0 <= k < |s| => SanitizeChar(s[k]))
  }

  /** `sanitize_filename(name)`: strip, lowercase, then every character
      outside `[a-z0-9._-]` becomes `_`. */
  function SanitizeFilename(name: string): (r: string)
    ensures |r| == |Strip(name)|
    ensures forall k :: 0 <= k < |r| ==> SafeChar(r[k])
  {
    ReplaceUnsafe(Lower(Strip(name)))
  }

  lemma SafeIsPlain(c: char)
    requires SafeChar(c)
    ensures c != '/' && !IsSpace(c) && LowerChar(c) == c && SanitizeChar(c) == c
  {
  }

  /** A sanitized name holds no separator and no whitespace, so it can only
      name an entry of the directory it is joined to. */
  lemma SanitizedIsPlain(name: string)
    ensures '/' !in SanitizeFilename(name)
    ensures forall k :: 0 <= k < |SanitizeFilename(name)| ==> !IsSpace(SanitizeFilename(name)[k])
  {
    var r := SanitizeFilename(name);
    forall k | 0 <= k < |r| ensures r[k] != '/' && !IsSpace(r[k]) {
      SafeIsPlain(r[k]);
    }
  }

  /** Sanitizing a sanitized name changes nothing. */
  lemma SanitizeIdempotent(name: string)
    ensures SanitizeFilename(SanitizeFilename(name)) == SanitizeFilename(name)
  {
    var r := SanitizeFilename(name);
    SanitizedIsPlain(name);
    assert IsStripped(r);
    StripStripped(r);
    forall k | 0 <= k < |r| ensures Lower(r)[k] == r[k] && SanitizeChar(r[k]) == r[k] {
      SafeIsPlain(r[k]);
    }
    assert Lower(r) == r;
  }

  /** Characters that are already safe once lowercased survive in place;
      every other character is replaced by exactly one `_`. */
  lemma SanitizeCharwise(name: string, k: nat)
    requires k < |Strip(name)|
    ensures var c := LowerChar(Strip(name)[k]);
      SanitizeFilename(name)[k] == if SafeChar(c) then c else '_'
  {
  }

  /** Each allowed extension is a dot and then lower-case letters or digits. */
  lemma AllowedShape(e: string)
    requires e in AllowedExtensions
    ensures |e| >= 4 && e[0] == '.'
    ensures forall k :: 0 <= k < |e| ==> SafeChar(e[k])
    ensures forall k :: 1 <= k < |e| ==> ('a' <= e[k] <= 'z') || ('0' <= e[k] <= '9')
  {
  }

  /** An upload that passes the extension check keeps that extension,
      lowercased, at the end of its sanitized name. */
  lemma SanitizedKeepsExtension(name: string)
    requires Lower(Ext(name)) in AllowedExtensions
    ensures var e := Lower(Ext(name));
      var r := SanitizeFilename(name);
      |r| >= |e| && r[|r| - |e|..] == e
  {
    var raw := Ext(name);
    AllowedTail(name, raw);
    StripKeepsTail(name, raw);
    SanitizeKeepsTail(name, raw);
  }

  /** The extension of an accepted upload is a tail of its name with no
      blank at either end and only safe characters once lowercased. */
  lemma AllowedTail(name: string, raw: string)
    requires raw == Ext(name) && Lower(raw) in AllowedExtensions
    ensures raw != [] && |raw| <= |name| && raw == name[|name| - |raw|..]
    ensures !IsSpace(raw[0]) && !IsSpace(raw[|raw| - 1])
    ensures forall k :: 0 <= k < |raw| ==> SafeChar(Lower(raw)[k])
  {
    AllowedShape(Lower(raw));
    ExtShape(name);
    EdgesNotBlank(raw);
  }

  /** A tail whose first and last characters are not blank survives `strip`. */
  lemma StripKeepsTail(name: string, tail: string)
    requires tail != [] && |tail| <= |name| && tail == name[|name| - |tail|..]
    requires !IsSpace(tail[0]) && !IsSpace(tail[|tail| - 1])
    ensures |Strip(name)| >= |tail| && Strip(name)[|Strip(name)| - |tail|..] == tail
  {
    var n, m := |name|, |tail|;
    var i, j := StripSlice(name);
    assert name[n - 1] == tail[m - 1];
    assert name[n - m] == tail[0];
    assert j == n;
    assert i <= n - m;
    assert Strip(name) == name[i..n];
  }

  /** Sanitizing leaves a stripped tail alone when its lowercase form is safe. */
  lemma SanitizeKeepsTail(name: string, tail: string)
    requires |Strip(name)| >= |tail| && Strip(name)[|Strip(name)| - |tail|..] == tail
    requires forall k :: 0 <= k < |tail| ==> SafeChar(Lower(tail)[k])
    ensures var r := SanitizeFilename(name);
      var e := Lower(tail);
      |r| >= |e| && r[|r| - |e|..] == e
  {
    var s := Strip(name);
    var e := Lower(tail);
    MapsSuffix(s, tail);
    ReplaceSafe(e);
  }

  /** Lowercasing and replacing work character by character, so they map a
      suffix to the suffix of the result. */
  lemma MapsSuffix(s: string, tail: string)
    requires |s| >= |tail| && s[|s| - |tail|..] == tail
    ensures var r := ReplaceUnsafe(Lower(s));
      r[|r| - |tail|..] == ReplaceUnsafe(Lower(tail))
  {
    var r := ReplaceUnsafe(Lower(s));
    var m := |tail|;
    forall t | 0 <= t < m ensures r[|r| - m + t] == ReplaceUnsafe(Lower(tail))[t] {
      assert s[|s| - m + t] == tail[t];
    }
  }

  /** Safe characters are not replaced. */
  lemma ReplaceSafe(e: string)
    requires forall k :: 0 <= k < |e| ==> SafeChar(e[k])
    ensures ReplaceUnsafe(e) == e
  {
    forall k | 0 <= k < |e| ensures ReplaceUnsafe(e)[k] == e[k] {
      SafeIsPlain(e[k]);
    }
  }

  /** An extension whose lowercase form is allowed starts with a dot and
      ends with a letter or digit, neither of them blank. */
  lemma EdgesNotBlank(raw: string)
    requires Lower(raw) in AllowedExtensions
    ensures raw != [] && !IsSpace(raw[0]) && !IsSpace(raw[|raw| - 1])
  {
    var e := Lower(raw);
    AllowedShape(e);
    assert LowerChar(raw[0]) == '.';
    assert SafeChar(LowerChar(raw[|raw| - 1]));
  }

  /** `os.path.join(os.path.join(RUNTIME_DATA_INPUT, pipeline_id), safe_filename)`. */
  function UploadPath(pipelineId: string, filename: string): string
  {
    PathJoin(PathJoin(InputDir, pipelineId), SanitizeFilename(filename))
  }

  /** With a plain pipeline id (a uuid has no separator), an accepted upload
      lands in its own directory beneath the input directory, under its
      sanitized name; the clearing before the upload does not reach it. */
  lemma UploadPathInInputDir(pipelineId: string, filename: string)
    requires pipelineId != "" && '/' !in pipelineId
    requires Lower(Ext(filename)) in AllowedExtensions
    ensures var safe := SanitizeFilename(filename);
      && safe != ""
      && UploadPath(pipelineId, filename) == InputDir + "/" + pipelineId + "/" + safe
      && UnderDir(UploadPath(pipelineId, filename), InputDir)
      && BaseName(UploadPath(pipelineId, filename)) == safe
      && forall i :: 0 <= i < |PreUploadDirs| ==> !UnderDir(UploadPath(pipelineId, filename), PreUploadDirs[i])
  {
    var safe := SanitizeFilename(filename);
    SanitizedKeepsExtension(filename);
    AllowedShape(Lower(Ext(filename)));
    SanitizedIsPlain(filename);
    JoinedUpload(pipelineId, safe);
  }

  /** Joining a plain id and a plain, non-empty name onto the input directory. */
  lemma JoinedUpload(pipelineId: string, safe: string)
    requires pipelineId != "" && '/' !in pipelineId && safe != "" && '/' !in safe
    ensures var p := PathJoin(PathJoin(InputDir, pipelineId), safe);
      && p == InputDir + "/" + pipelineId + "/" + safe
      && UnderDir(p, InputDir)
      && BaseName(p) == safe
      && forall i :: 0 <= i < |PreUploadDirs| ==> !UnderDir(p, PreUploadDirs[i])
  {
    assert pipelineId[0] != '/' by { assert pipelineId[0] in pipelineId; }
    assert safe[0] != '/' by { assert safe[0] in safe; }
    var dir := InputDir + "/" + pipelineId;
    assert PathJoin(InputDir, pipelineId) == dir;
    assert dir[|dir| - 1] != '/' by { assert dir[|dir| - 1] == pipelineId[|pipelineId| - 1]; }
    var p := dir + "/" + safe;
    assert PathJoin(dir, safe) == p;
    assert p[..|InputDir| + 1] == InputDir + "/";
    BaseNameOfJoin(dir, safe);
    assert p[|dir| + 1..] == safe;
    DiffersFrom(p, NormalizedDir, InputDir, 14);
    DiffersFrom(p, ClipsDir, InputDir, 14);
    DiffersFrom(p, SelectionDir, InputDir, 14);
    DiffersFrom(p, StateDir, InputDir, 9);
  }

  /** The last separator of `dir + "/" + name` is the one added, when
      `name` holds none. */
  lemma BaseNameOfJoin(dir: string, name: string)
    requires '/' !in name
    ensures LastIndexOf(dir + "/" + name, '/') == |dir|
  {
    var p := dir + "/" + name;
    NoSeparatorAfter(dir, name, p);
    LastIndexAt(p, '/', |dir|);
  }

  lemma NoSeparatorAfter(dir: string, name: string, p: string)
    requires '/' !in name && p == dir + "/" + name
    ensures |dir| < |p| && p[|dir|] == '/'
    ensures forall k :: |dir| < k < |p| ==> p[k] != '/'
  {
    forall k | |dir| < k < |p| ensures p[k] != '/' {
      assert p[k] == name[k - |dir| - 1];
    }
  }

  /** The last occurrence is the occurrence with none after it. */
  lemma LastIndexAt(s: string, c: char, i: nat)
    requires i < |s| && s[i] == c
    requires forall k :: i < k < |s| ==> s[k] != c
    ensures LastIndexOf(s, c) == i
  {
    var j := LastIndexOf(s, c);
    assert j >= i;
  }

  /** A path that begins like `base` and differs from `dir` at a position
      inside both is not beneath `dir`. */
  lemma DiffersFrom(p: string, dir: string, base: string, k: nat)
    requires k < |dir| && k < |base| && |base| + 1 <= |p| && p[..|base| + 1] == base + "/"
    requires base[k] != dir[k]
    ensures !UnderDir(p, dir)
  {
    assert p[k] == base[k];
  }

  /** What the endpoint answers: an HTTP error raised by the endpoint, the
      failure a pipeline stage raised (which escapes the endpoint), or the
      `{pipeline_id, tone, result}` document. */
  datatype Response =
    | HttpError(status: nat, detail: string)
    | PipelineRaised(failure: Failure)
    | Accepted(pipelineId: string, tone: string, result: PipelineOutput)

  /** What the endpoint answers for a run's result. */
  function RunAnswer(pipelineId: string, tone: string, run: Result<PipelineOutput, Failure>): (resp: Response)
    ensures resp.Accepted? <==> run.Ok?
  {
    if run.Err? then PipelineRaised(run.error) else Accepted(pipelineId, tone, run.value)
  }

  /** `upload_audio(file, tone)` against the module's single controller.
      `filename` is `file.filename`; `pipelineId` is the fresh uuid;
      `saved` says whether `save_upload_file` produced the file. Once the
      upload is in place, the pipeline runs on it with the requested tone:
      the store writes, the answer and the external calls are those of
      `run_pipeline` on the upload's path. */
  method UploadAudio(controller: PipelineController, filename: Option<string>, tone: string,
                     pipelineId: string, saved: bool, env: Environment)
    returns (resp: Response)
    modifies controller, controller.host
    ensures filename == None || filename == Some("") ==>
      resp == HttpError(400, "No filename provided") && unchanged(controller, controller.host)
    ensures filename.Some? && filename.value != "" && Lower(Ext(filename.value)) !in AllowedExtensions ==>
      resp == HttpError(400, "Unsupported file type: " + Ext(filename.value))
      && unchanged(controller, controller.host)
    ensures filename.Some? && filename.value != "" && Lower(Ext(filename.value)) in AllowedExtensions ==>
      var dest := UploadPath(pipelineId, filename.value);
      var cleared := RemoveTrees(old(controller.host.files), PreUploadDirs);
      var present := cleared + if saved then {dest} else {};
      var silence := SilenceAtStitch(present, pipelineId);
      && (dest !in present ==>
            resp == HttpError(500, "Uploaded file missing after save")
            && controller.host.files == cleared && unchanged(controller)
            && controller.host.calls == old(controller.host.calls))
      && (dest in present ==>
            && controller.store == old(controller.store) + [Reset]
               + AsWrites(Persisted(pipelineId, dest))[..StoredSnapshots(dest, env, true)]
            && resp == RunAnswer(pipelineId, tone, RunResult(pipelineId, dest, tone, env, true, silence))
            && (resp.Accepted? <==> Succeeds(pipelineId, dest, tone, env, true, silence))
            && (exists listPath :: controller.host.calls == old(controller.host.calls)
                  + RunCalls(pipelineId, dest, tone, env, true, silence, listPath)))
    ensures resp.Accepted? ==>
      && resp.pipelineId == pipelineId && resp.tone == tone
      && resp.result.pipelineId == pipelineId
      && (resp.result.finalAudio == None <==> resp.result.clips == [])
      && (resp.result.finalAudio != None ==> OutFile in controller.host.files)
      && (pipelineId != "" && '/' !in pipelineId ==> UploadPath(pipelineId, filename.value) !in controller.host.files)
  {
    if filename == None || filename == Some("") {
      return HttpError(400, "No filename provided");
    }
    var name := filename.value;
    var ext := Ext(name);
    if Lower(ext) !in AllowedExtensions {
      return HttpError(400, "Unsupported file type: " + ext);
    }
    controller.host.RemoveDirs(PreUploadDirs);
    var destDir := PathJoin(InputDir, pipelineId);
    var safeFilename := SanitizeFilename(name);
    var destPath := PathJoin(destDir, safeFilename);
    if saved {
      controller.host.files := controller.host.files + {destPath};
    }
    if destPath !in controller.host.files {
      return HttpError(500, "Uploaded file missing after save");
    }
    resp := RunUpload(controller, pipelineId, name, destPath, tone, env);
  }

  /** `run_pipeline` on an upload that is in place, and the answer built
      from its result. */
  method RunUpload(controller: PipelineController, pipelineId: string, name: string, dest: string,
                   tone: string, env: Environment)
    returns (resp: Response)
    requires dest == UploadPath(pipelineId, name) && Lower(Ext(name)) in AllowedExtensions
    requires dest in controller.host.files
    modifies controller, controller.host
    ensures controller.store == old(controller.store) + [Reset]
      + AsWrites(Persisted(pipelineId, dest))[..StoredSnapshots(dest, env, true)]
    ensures resp == RunAnswer(pipelineId, tone,
      RunResult(pipelineId, dest, tone, env, true, SilenceAtStitch(old(controller.host.files), pipelineId)))
    ensures resp.Accepted? <==> Succeeds(pipelineId, dest, tone, env, true, SilenceAtStitch(old(controller.host.files), pipelineId))
    ensures exists listPath :: (controller.host.calls == old(controller.host.calls)
      + RunCalls(pipelineId, dest, tone, env, true, SilenceAtStitch(old(controller.host.files), pipelineId), listPath))
    ensures resp.Accepted? ==>
      && resp.pipelineId == pipelineId && resp.tone == tone
      && resp.result.pipelineId == pipelineId
      && (resp.result.finalAudio == None <==> resp.result.clips == [])
      && (resp.result.finalAudio != None ==> OutFile in controller.host.files)
      && (pipelineId != "" && '/' !in pipelineId ==> dest !in controller.host.files)
  {
    ghost var files0 := controller.host.files;
    ghost var silence := SilenceAtStitch(files0, pipelineId);
    var result := controller.RunPipeline(pipelineId, dest, tone, env);
    RunSucceeds(pipelineId, dest, tone, env, true, silence);
    resp := RunAnswer(pipelineId, tone, result);
    if result.Ok? {
      AcceptedRun(pipelineId, name, dest, tone, env, silence, files0, controller.host.files);
    }
  }

  /** After a successful run on an upload, the answer's reel is present
      exactly when there are clips, and the upload itself has been swept
      away with the input directory. */
  lemma AcceptedRun(pipelineId: string, name: string, dest: string, tone: string, env: Environment,
                    silence: bool, files0: set<string>, files: set<string>)
    requires dest == UploadPath(pipelineId, name) && Lower(Ext(name)) in AllowedExtensions
    requires Succeeds(pipelineId, dest, tone, env, true, silence)
    requires var out := RunResult(pipelineId, dest, tone, env, true, silence);
      out.Ok? && files == RemoveTrees(files0 + RunFiles(pipelineId, dest, out.value.clips), CleanupDirs)
    ensures var out := RunResult(pipelineId, dest, tone, env, true, silence).value;
      && out.pipelineId == pipelineId
      && (out.finalAudio == None <==> out.clips == [])
      && (out.finalAudio != None ==> OutFile in files)
      && (pipelineId != "" && '/' !in pipelineId ==> dest !in files)
  {
    RunSucceeds(pipelineId, dest, tone, env, true, silence);
    var clips := RunResult(pipelineId, dest, tone, env, true, silence).value.clips;
    RunLeavesNoWork(files0, pipelineId, dest, clips);
    if pipelineId != "" && '/' !in pipelineId {
      UploadSwept(pipelineId, name, files);
    }
  }

  /** After a successful run nothing is left beneath the input directory,
      so an upload stored there is gone too. */
  lemma UploadSwept(pipelineId: string, name: string, files: set<string>)
    requires pipelineId != "" && '/' !in pipelineId
    requires Lower(Ext(name)) in AllowedExtensions
    requires forall f, i :: f in files && 0 <= i < |CleanupDirs| ==> !UnderDir(f, CleanupDirs[i])
    ensures UploadPath(pipelineId, name) !in files
  {
    UploadPathInInputDir(pipelineId, name);
    assert CleanupDirs[0] == InputDir;
  }
}
