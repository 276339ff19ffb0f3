/** The runtime directory layout (backend/app/config/paths.py) and the three
    POSIX path operations the pipeline uses on it: `os.path.join`,
    `os.path.splitext` and `pathlib.Path(p).stem`. */
module Paths {

  const InputDir := "/runtime/data/input_audio"
  const NormalizedDir := "/runtime/data/normalized_audio"
  const ClipsDir := "/runtime/data/clips"
  const OutputDir := "/runtime/data/output_podcast"
  const SelectionDir := "/runtime/data/sentence_selection"
  /** `os.path.dirname(RUNTIME_STATE_PATH)`. */
  const StateDir := "/runtime/state"
  const StatePath := "/runtime/state/state.json"

  /** `os.path.join(a, b)` on POSIX: an absolute `b` replaces `a`, and a
      separator is added only when `a` is non-empty and lacks a trailing one. */
  function PathJoin(a: string, b: string): string
  {
    if |b| > 0 && b[0] == '/' then b
    else if a == [] || a[|a| - 1] == '/' then a + b
    else a + "/" + b
  }

  /** `path` lies somewhere beneath directory `dir`. */
  predicate UnderDir(path: string, dir: string)
  {
    |dir| + 1 <= |path| && path[..|dir| + 1] == dir + "/"
  }

  /** Position of the last `c` in `s`, or -1 (`str.rfind`). */
  function LastIndexOf(s: string, c: char): (i: int)
    ensures -1 <= i < |s|
    ensures i >= 0 ==> s[i] == c
    ensures forall k :: i < k < |s| ==> s[k] != c
  {
    if |s| == 0 then -1
    else if s[|s| - 1] == c then |s| - 1
    else LastIndexOf(s[..|s| - 1], c)
  }

  /** The final path component: what follows the last '/'. */
  function BaseName(p: string): string
  {
    p[LastIndexOf(p, '/') + 1..]
  }

  /** `os.path.join(a, b)` ends with `b` whenever `b` is non-empty. */
  lemma PathJoinEnds(a: string, b: string)
    requires |b| > 0
    ensures |PathJoin(a, b)| >= |b| && PathJoin(a, b)[|PathJoin(a, b)| - 1] == b[|b| - 1]
  {
  }

  /** `pathlib.PurePath(p).stem`: the final component without its last
      suffix, where a leading dot or a trailing dot does not start one. */
  function Stem(p: string): string
  {
    var name := BaseName(p);
    var i := LastIndexOf(name, '.');
    if 0 < i < |name| - 1 then name[..i] else name
  }

  /** The stem has no separator and begins the final component; what it
      leaves off is one dot and a non-empty suffix with no further dot. */
  lemma StemShape(p: string)
    ensures var name, r := BaseName(p), Stem(p);
      && '/' !in r
      && |r| <= |name| && r == name[..|r|]
      && (|r| < |name| ==> 0 < |r| && name[|r|] == '.' && |r| + 1 < |name| && '.' !in name[|r| + 1..])
  {
    var name := BaseName(p);
    var i := LastIndexOf(name, '.');
    assert forall k :: 0 <= k < |name| ==> name[k] == p[LastIndexOf(p, '/') + 1 + k];
    if 0 < i < |name| - 1 {
      assert forall k :: i < k < |name| ==> name[k] != '.';
    }
  }

  /** The extension `os.path.splitext(p)` returns: from the last dot of the
      final component on, provided a character other than a dot precedes
      that dot within the component; otherwise empty. */
  function Ext(p: string): string
  {
    var sep := LastIndexOf(p, '/');
    var dot := LastIndexOf(p, '.');
    if dot > sep && exists k :: sep < k < dot && p[k] != '.' then p[dot..] else ""
  }

  /** An extension is empty or a dot followed by no dot and no separator,
      and it is the tail of the path. */
  lemma ExtShape(p: string)
    ensures var e := Ext(p);
      e == "" || (e[0] == '.' && e == p[|p| - |e|..] && '/' !in e && '.' !in e[1..])
  {
    var e := Ext(p);
    if e != "" {
      var dot := LastIndexOf(p, '.');
      assert e == p[dot..];
      forall k | 0 <= k < |e| ensures e[k] != '/' && (k > 0 ==> e[k] != '.') {
        assert e[k] == p[dot + k];
      }
    }
  }
}
