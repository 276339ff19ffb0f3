/** Sentence selection (backend/app/stages/sentence_selection/cross_encoder_stage.py):
    resolve the requested tone to its query, rank the transcript sentences by
    the relevance score the external scorer returns, keep the best `top_k`,
    and merge the kept sentences that lie close together in time. */
module SentenceSelection {
  import opened Common
  import opened Text
  import opened Paths
  import opened StableSort
  import opened Runtime
  import opened PipelineState

  /** Largest gap, in seconds, across which two selected sentences merge. */
  const MergeGap: real := 0.6
  const DefaultTopK: nat := 12

  /** The closed tone vocabulary: the keys of the tone-to-query table. */
  const Tones: set<string> := {"informative", "motivational", "storytelling", "calm", "excitement"}

  /** The query each tone's sentences are scored against. */
  function ToneQuery(tone: string): string
    requires tone in Tones
  {
    if tone == "informative" then
      "Educational content that teaches concepts, steps, facts, instructions, explanations, or actionable knowledge."
    else if tone == "motivational" then
      "Motivational speech that inspires action, confidence, discipline, or personal growth."
    else if tone == "storytelling" then
      "Narrative storytelling with examples, experiences, scenarios, or stories."
    else if tone == "calm" then
      "Calm, reassuring, reflective content spoken in a relaxed manner."
    else
      "Energetic, enthusiastic, high-energy speech expressing excitement."
  }

  function MinNat(a: nat, b: nat): nat
  {
    if a <= b then a else b
  }

  // ---------------------------------------------------------------------
  // Ranking: sorted(zip(scores, sentences), key=score, reverse=True)[:top_k]
  // ---------------------------------------------------------------------

  /** Sort keys for the descending score sort: a stable sort with
      `reverse=True` is the stable ascending sort on the negated score. */
  function NegatedScores(scores: seq<real>, n: nat): (keys: seq<real>)
    requires n <= |scores|
    ensures |keys| == n && forall i :: 0 <= i < n ==> keys[i] == -scores[i]
  {
    seq(n, i requires 0 <= i < n => -scores[i])
  }

  /** Sentence positions from the highest score down; `zip` pairs only the
      first `n` sentences and scores. */
  function RankOrder(scores: seq<real>, n: nat): (o: seq<nat>)
    requires n <= |scores|
    ensures |o| == n && Below(o, n)
  {
    SortIndices(NegatedScores(scores, n), n)
  }

  /** The `top_k` best-scored sentences, best first. */
  function TopK(sentences: seq<Span>, scores: seq<real>, k: nat): (r: seq<Span>)
    ensures |r| == MinNat(k, MinNat(|sentences|, |scores|))
    ensures forall a :: 0 <= a < |r| ==> r[a] in sentences
  {
    var n := MinNat(|sentences|, |scores|);
    var order := RankOrder(scores, n);
    assert Below(order[..MinNat(k, n)], |sentences|);
    Permute(sentences, order[..MinNat(k, n)])
  }

  /** The selection holds the first min(top_k, n) positions of the ranking,
      ordered by score from high to low, ties in transcript order, with no
      position taken twice. */
  lemma TopKRanked(sentences: seq<Span>, scores: seq<real>, k: nat)
    ensures var n := MinNat(|sentences|, |scores|);
      var o := RankOrder(scores, n);
      var r := TopK(sentences, scores, k);
      && |r| == MinNat(k, n)
      && (forall a :: 0 <= a < |r| ==> o[a] < n && r[a] == sentences[o[a]])
      && (forall a, b :: 0 <= a < b < |r| ==>
            o[a] != o[b] &&
            (scores[o[a]] > scores[o[b]] || (scores[o[a]] == scores[o[b]] && o[a] < o[b])))
  {
    var n := MinNat(|sentences|, |scores|);
    var keys := NegatedScores(scores, n);
    SortIndicesSorted(keys, n);
  }

  /** No sentence left out of the selection scores above a selected one. */
  lemma TopKKeepsBest(sentences: seq<Span>, scores: seq<real>, k: nat, i: nat)
    requires i < MinNat(|sentences|, |scores|)
    requires i !in RankOrder(scores, MinNat(|sentences|, |scores|))[..MinNat(k, MinNat(|sentences|, |scores|))]
    ensures var o := RankOrder(scores, MinNat(|sentences|, |scores|));
      forall a :: 0 <= a < MinNat(k, MinNat(|sentences|, |scores|)) ==> scores[o[a]] >= scores[i]
  {
    var n := MinNat(|sentences|, |scores|);
    var m := MinNat(k, n);
    var keys := NegatedScores(scores, n);
    var o := RankOrder(scores, n);
    SortIndicesSorted(keys, n);
    SortIndicesHas(keys, n, i);
    assert forall t :: 0 <= t < m ==> o[..m][t] == o[t] && o[t] != i;
    var p :| 0 <= p < |o| && o[p] == i;
    forall a | 0 <= a < m ensures scores[o[a]] >= scores[i] {
      assert Precedes(keys, o[a], o[p]);
    }
  }

  // ---------------------------------------------------------------------
  // Merging: _merge_close_segments
  // ---------------------------------------------------------------------

  function Starts(s: seq<Span>): (keys: seq<real>)
    ensures |keys| == |s| && forall k :: 0 <= k < |s| ==> keys[k] == s[k].start
  {
    seq(|s|, k requires 0 <= k < |s| => s[k].start)
  }

  function Texts(s: seq<Span>): (ts: seq<string>)
    ensures |ts| == |s| && forall k :: 0 <= k < |s| ==> ts[k] == s[k].text
  {
    seq(|s|, k requires 0 <= k < |s| => s[k].text)
  }

  /** `sorted(segments, key=lambda s: s["start"])`. */
  function SortByStart(s: seq<Span>): (r: seq<Span>)
    ensures |r| == |s|
  {
    Permute(s, SortIndices(Starts(s), |s|))
  }

  predicate StartsAscending(s: seq<Span>)
  {
    forall a, b :: 0 <= a < b < |s| ==> s[a].start <= s[b].start
  }

  /** Consecutive spans are more than `MergeGap` apart. */
  predicate GapsExceed(s: seq<Span>)
  {
    forall k :: 0 <= k < |s| - 1 ==> s[k + 1].start - s[k].end > MergeGap
  }

  /** Span `x` lies within span `y`. */
  predicate Within(x: Span, y: Span)
  {
    y.start <= x.start && x.end <= y.end
  }

  /** Extends `prev` with `cur`: same start, the later end, texts joined by one space. */
  function Absorb(prev: Span, cur: Span): Span
  {
    Span(prev.start, Max(prev.end, cur.end), prev.text + " " + cur.text)
  }

  /** One iteration of the merge loop: absorb `cur` into the last merged
      span when the gap is at most `MergeGap`, else start a new span. */
  function MergeStep(merged: seq<Span>, cur: Span): seq<Span>
  {
    if merged == [] then [cur]
    else if cur.start - merged[|merged| - 1].end <= MergeGap then
      merged[..|merged| - 1] + [Absorb(merged[|merged| - 1], cur)]
    else merged + [cur]
  }

  /** The single greedy left-to-right pass over already-sorted spans. */
  function MergeSorted(s: seq<Span>): seq<Span>
  {
    if s == [] then [] else MergeStep(MergeSorted(s[..|s| - 1]), s[|s| - 1])
  }

  /** `_merge_close_segments(segments)`. */
  function MergeClose(segments: seq<Span>): seq<Span>
  {
    MergeSorted(SortByStart(segments))
  }

  lemma SortByStartAscending(s: seq<Span>)
    ensures StartsAscending(SortByStart(s))
  {
    var keys := Starts(s);
    SortIndicesSorted(keys, |s|);
  }

  /** Sorting by start loses and duplicates no span. */
  lemma SortByStartPermutes(s: seq<Span>)
    ensures multiset(SortByStart(s)) == multiset(s)
  {
    SortPermutes(s, Starts(s), |s|);
    assert s[..|s|] == s;
  }

  /** Spans already in start order stay where they are. */
  lemma SortByStartOfSorted(s: seq<Span>)
    requires StartsAscending(s)
    ensures SortByStart(s) == s
  {
    SortIndicesOfSorted(Starts(s), |s|);
  }

  /** `x` lies within some span of `m`. */
  predicate CoveredBy(x: Span, m: seq<Span>)
  {
    exists j :: 0 <= j < |m| && Within(x, m[j])
  }

  // One merge step at a time.

  lemma StepSize(m: seq<Span>, c: Span)
    ensures 1 <= |MergeStep(m, c)| <= |m| + 1
    ensures m != [] ==> |MergeStep(m, c)| >= |m|
  {
  }

  lemma StepAscending(m: seq<Span>, c: Span)
    requires StartsAscending(m)
    requires m != [] ==> m[|m| - 1].start <= c.start
    ensures StartsAscending(MergeStep(m, c))
    ensures MergeStep(m, c)[|MergeStep(m, c)| - 1].start <= c.start
  {
    var r := MergeStep(m, c);
    if m != [] && c.start - m[|m| - 1].end <= MergeGap {
      forall a, b | 0 <= a < b < |r| ensures r[a].start <= r[b].start {
        assert r[a].start == m[a].start && r[b].start == m[b].start;
      }
    }
  }

  lemma StepGaps(m: seq<Span>, c: Span)
    requires GapsExceed(m)
    ensures GapsExceed(MergeStep(m, c))
  {
    var r := MergeStep(m, c);
    if m != [] && c.start - m[|m| - 1].end <= MergeGap {
      forall k | 0 <= k < |r| - 1 ensures r[k + 1].start - r[k].end > MergeGap {
        assert r[k] == m[k] && r[k + 1].start == m[k + 1].start;
      }
    }
  }

  lemma StepCovers(m: seq<Span>, c: Span, x: Span)
    requires m != [] ==> m[|m| - 1].start <= c.start
    requires x == c || CoveredBy(x, m)
    ensures CoveredBy(x, MergeStep(m, c))
  {
    var r := MergeStep(m, c);
    if x == c {
      assert Within(x, r[|r| - 1]);
    } else {
      var j :| 0 <= j < |m| && Within(x, m[j]);
      if j == |m| - 1 {
        assert Within(x, r[j]);
      } else {
        assert r[j] == m[j];
      }
    }
  }

  lemma JoinSnoc(ts: seq<string>, t: string)
    requires |ts| >= 1
    ensures Join(" ", ts + [t]) == Join(" ", ts) + " " + t
  {
    assert (ts + [t])[..|ts|] == ts;
  }

  lemma StepTexts(m: seq<Span>, c: Span)
    ensures Join(" ", Texts(MergeStep(m, c))) ==
      if m == [] then c.text else Join(" ", Texts(m)) + " " + c.text
  {
    var r := MergeStep(m, c);
    if m != [] {
      var q := |m|;
      var last := m[q - 1];
      var init := m[..q - 1];
      assert Texts(m) == Texts(init) + [last.text];
      if c.start - last.end <= MergeGap {
        assert Texts(r) == Texts(init) + [last.text + " " + c.text];
        if q > 1 {
          JoinSnoc(Texts(init), last.text);
          JoinSnoc(Texts(init), last.text + " " + c.text);
        }
      } else {
        assert Texts(r) == Texts(m) + [c.text];
        JoinSnoc(Texts(m), c.text);
      }
    }
  }

  // The whole pass, by induction on the input.

  /** Merging never adds spans, and keeps at least one of a non-empty input. */
  lemma {:induction false} MergeSize(s: seq<Span>)
    ensures |MergeSorted(s)| <= |s|
    ensures s != [] ==> |MergeSorted(s)| >= 1
  {
    if s != [] {
      MergeSize(s[..|s| - 1]);
      StepSize(MergeSorted(s[..|s| - 1]), s[|s| - 1]);
    }
  }

  lemma PrefixAscending(s: seq<Span>, n: nat)
    requires StartsAscending(s) && n <= |s|
    ensures StartsAscending(s[..n])
  {
  }

  /** Over start-sorted input, merged spans stay in start order, and the
      last one starts no later than the last input span. */
  lemma {:induction false} MergeStartsAscending(s: seq<Span>)
    requires StartsAscending(s)
    ensures StartsAscending(MergeSorted(s))
    ensures s != [] ==>
      |MergeSorted(s)| >= 1 && MergeSorted(s)[|MergeSorted(s)| - 1].start <= s[|s| - 1].start
  {
    if s != [] {
      var p, c := s[..|s| - 1], s[|s| - 1];
      PrefixAscending(s, |s| - 1);
      MergeStartsAscending(p);
      var m' := MergeSorted(p);
      if p != [] {
        assert p[|p| - 1].start <= c.start;
      }
      StepAscending(m', c);
      StepSize(m', c);
    }
  }

  /** Consecutive merged spans are more than `MergeGap` apart: any closer
      pair would have been merged. */
  lemma {:induction false} MergeGaps(s: seq<Span>)
    ensures GapsExceed(MergeSorted(s))
  {
    if s != [] {
      MergeGaps(s[..|s| - 1]);
      StepGaps(MergeSorted(s[..|s| - 1]), s[|s| - 1]);
    }
  }

  /** Over start-sorted input, every input span lies within some merged
      span: merging drops no stretch of selected audio. */
  lemma {:induction false} MergeCovers(s: seq<Span>)
    requires StartsAscending(s)
    ensures forall i :: 0 <= i < |s| ==> CoveredBy(s[i], MergeSorted(s))
  {
    if s != [] {
      var p, c := s[..|s| - 1], s[|s| - 1];
      PrefixAscending(s, |s| - 1);
      MergeCovers(p);
      MergeStartsAscending(p);
      var m' := MergeSorted(p);
      forall i | 0 <= i < |s| ensures CoveredBy(s[i], MergeSorted(s)) {
        if i < |p| {
          assert s[i] == p[i];
        }
        StepCovers(m', c, s[i]);
      }
    }
  }

  /** No text is lost, duplicated or reordered: the merged texts, joined by
      single spaces, spell out the input texts joined the same way. */
  lemma {:induction false} MergeTexts(s: seq<Span>)
    ensures Join(" ", Texts(MergeSorted(s))) == Join(" ", Texts(s))
  {
    if s != [] {
      var p, c := s[..|s| - 1], s[|s| - 1];
      MergeTexts(p);
      MergeSize(p);
      StepTexts(MergeSorted(p), c);
      assert Texts(s) == Texts(p) + [c.text];
      if p != [] {
        JoinSnoc(Texts(p), c.text);
      }
    }
  }

  /** Spans already more than `MergeGap` apart pass through unchanged. */
  lemma {:induction false} MergeOfGapped(s: seq<Span>)
    requires GapsExceed(s)
    ensures MergeSorted(s) == s
  {
    if s != [] {
      var p := s[..|s| - 1];
      assert GapsExceed(p) by {
        forall k | 0 <= k < |p| - 1 ensures p[k + 1].start - p[k].end > MergeGap {
          assert p[k] == s[k] && p[k + 1] == s[k + 1];
        }
      }
      MergeOfGapped(p);
      assert p + [s[|s| - 1]] == s;
    }
  }

  /** What `_merge_close_segments` promises of its output. */
  lemma MergeCloseProperties(segments: seq<Span>)
    ensures var m := MergeClose(segments);
      && (segments == [] <==> m == [])
      && |m| <= |segments|
      && StartsAscending(m)
      && GapsExceed(m)
      && (forall i :: 0 <= i < |segments| ==> CoveredBy(segments[i], m))
      && Join(" ", Texts(m)) == Join(" ", Texts(SortByStart(segments)))
  {
    var s := SortByStart(segments);
    var m := MergeClose(segments);
    SortByStartAscending(segments);
    SortByStartPermutes(segments);
    MergeSize(s);
    MergeStartsAscending(s);
    MergeGaps(s);
    MergeCovers(s);
    MergeTexts(s);
    forall i | 0 <= i < |segments| ensures CoveredBy(segments[i], m) {
      assert segments[i] in multiset(s);
      var t :| 0 <= t < |s| && s[t] == segments[i];
      assert CoveredBy(s[t], m);
    }
  }

  /** Merging the merged list again changes nothing. */
  lemma MergeCloseIdempotent(segments: seq<Span>)
    ensures MergeClose(MergeClose(segments)) == MergeClose(segments)
  {
    var m := MergeClose(segments);
    MergeCloseProperties(segments);
    SortByStartOfSorted(m);
    MergeOfGapped(m);
  }

  /** Two sentences 0.3 s apart merge; a third 5.7 s after the first pair
      ends stays apart. */
  lemma MergeExample(a: Span, b: Span, c: Span)
    requires a == Span(0.0, 2.0, "a") && b == Span(2.3, 4.0, "b") && c == Span(10.0, 12.0, "c")
    ensures MergeClose([a, b, c]) == [Span(0.0, 4.0, "a b"), c]
  {
    var s := [a, b, c];
    ExampleAscending(a, b, c);
    SortByStartOfSorted(s);
    assert MergeClose(s) == MergeSorted(s);
    MergeExamplePrefix(a, b);
    FirstTwo(a, b, c);
    var ab := Span(0.0, 4.0, "a b");
    assert MergeSorted(s) == MergeStep([ab], c);
    AppendOne(ab, c);
  }

  lemma FirstTwo<T>(x: T, y: T, z: T)
    ensures [x, y, z][..2] == [x, y] && [x, y, z][2] == z
  {
  }

  lemma AppendOne<T>(x: T, y: T)
    ensures [x] + [y] == [x, y]
  {
  }

  lemma ExampleAscending(a: Span, b: Span, c: Span)
    requires a.start <= b.start <= c.start
    ensures StartsAscending([a, b, c])
  {
  }

  /** The first two spans of the example, 0.3 s apart, become one. */
  lemma MergeExamplePrefix(a: Span, b: Span)
    requires a == Span(0.0, 2.0, "a") && b == Span(2.3, 4.0, "b")
    ensures MergeSorted([a, b]) == [Span(0.0, 4.0, "a b")]
  {
    var m0: seq<Span> := [];
    assert [a][..0] == m0 && MergeSorted(m0) == [];
    assert MergeSorted([a]) == MergeStep(MergeSorted(m0), a);
    assert [a, b][..1] == [a];
    assert Absorb(a, b).text == "a b";
    assert MergeStep([a], b) == [Absorb(a, b)];
  }

  /** `_merge_close_segments(segments)`: sort by start, then merge. */
  method MergeCloseSegments(segments: seq<Span>) returns (merged: seq<Span>)
    ensures merged == MergeClose(segments)
    ensures segments == [] ==> merged == []
    ensures segments != [] ==> 1 <= |merged| <= |segments|
    ensures StartsAscending(merged) && GapsExceed(merged)
  {
    MergeCloseProperties(segments);
    if segments == [] {
      return [];
    }
    var sorted := SortByStart(segments);
    merged := MergeSortedSpans(sorted);
  }

  /** The merge loop: walk the sorted spans once, widening the last merged
      span or appending a new one. */
  method MergeSortedSpans(sorted: seq<Span>) returns (merged: seq<Span>)
    requires sorted != []
    ensures merged == MergeSorted(sorted)
  {
    merged := [sorted[0]];
    assert sorted[..1] == [sorted[0]] && sorted[..1][..0] == [];
    var i := 1;
    while i < |sorted|
      invariant 1 <= i <= |sorted|
      invariant merged == MergeSorted(sorted[..i])
      invariant merged != []
    {
      var cur := sorted[i];
      var prev := merged[|merged| - 1];
      TakeSnoc(sorted, i);
      if cur.start - prev.end <= MergeGap {
        merged := merged[..|merged| - 1] + [prev.(end := Max(prev.end, cur.end), text := prev.text + " " + cur.text)];
      } else {
        merged := merged + [cur];
      }
      i := i + 1;
    }
    assert sorted[..i] == sorted;
  }

  lemma TakeSnoc<T>(s: seq<T>, i: nat)
    requires i < |s|
    ensures s[..i + 1] == s[..i] + [s[i]]
    ensures var p := s[..i + 1]; p[..|p| - 1] == s[..i] && p[|p| - 1] == s[i]
  {
  }

  // ---------------------------------------------------------------------
  // The stage: run_sentence_selection
  // ---------------------------------------------------------------------

  /** What the relevance scorer returned for the (query, sentence) pairs. */
  datatype ScorerOutcome = Scores(values: seq<real>) | ScorerError(cause: string)

  /** The selection the stage returns, or the failure it raises (before the
      state check that follows it). */
  function SelectSentences(sentences: seq<Span>, tone: string, scorer: ScorerOutcome, topK: nat): Result<seq<Span>, Failure>
  {
    if tone !in Tones then Err(UnsupportedTone(tone))
    else match scorer
      case ScorerError(cause) => Err(ScoringFailed(cause))
      case Scores(values) => Ok(MergeClose(TopK(sentences, values, topK)))
  }

  /** An unknown tone fails the same way whatever the scorer would have said. */
  lemma UnknownToneRejected(sentences: seq<Span>, tone: string, scorer: ScorerOutcome, topK: nat)
    ensures SelectSentences(sentences, tone, scorer, topK).Err? <==>
      (tone !in Tones || scorer.ScorerError?)
    ensures tone !in Tones ==> SelectSentences(sentences, tone, scorer, topK) == Err(UnsupportedTone(tone))
  {
  }

  /** A scorer failure on a known tone fails the stage with the scorer's
      cause; a selection is at most `top_k` spans long, in start order,
      with every gap above `MergeGap`, and covers each top-ranked sentence. */
  lemma SelectionShape(sentences: seq<Span>, tone: string, scorer: ScorerOutcome, topK: nat)
    ensures tone in Tones && scorer.ScorerError? ==>
      SelectSentences(sentences, tone, scorer, topK) == Err(ScoringFailed(scorer.cause))
    ensures var r := SelectSentences(sentences, tone, scorer, topK);
      r.Ok? ==>
        var top := TopK(sentences, scorer.values, topK);
        && |r.value| <= MinNat(topK, MinNat(|sentences|, |scorer.values|))
        && StartsAscending(r.value)
        && GapsExceed(r.value)
        && (forall a :: 0 <= a < |top| ==> CoveredBy(top[a], r.value))
  {
    if tone in Tones && scorer.Scores? {
      MergeCloseProperties(TopK(sentences, scorer.values, topK));
    }
  }

  /** The table has five tones, "storytelling" among them. */
  lemma ToneVocabulary()
    ensures |Tones| == 5 && "storytelling" in Tones
  {
  }

  function SelectionOutputPath(pipelineId: string): string
  {
    PathJoin(SelectionDir, pipelineId + "_sentences.json")
  }

  /** `run_sentence_selection(whisper_json_path, tone, state, top_k)`, with the
      transcript's sentences given directly. */
  method RunSentenceSelection(state: RunState, host: Host, sentences: seq<Span>, tone: string,
                              scorer: ScorerOutcome, topK: nat)
    returns (r: Result<seq<Span>, Failure>)
    modifies state, host
    ensures tone !in Tones ==>
      r == Err(UnsupportedTone(tone)) && unchanged(state, host)
    ensures tone in Tones ==>
      host.calls == old(host.calls) + [Score(ToneQuery(tone), Texts(sentences))]
    ensures tone in Tones && scorer.ScorerError? ==>
      r == Err(ScoringFailed(scorer.cause)) && unchanged(state) && host.files == old(host.files)
    ensures tone in Tones && scorer.Scores? ==>
      var selected := MergeClose(TopK(sentences, scorer.values, topK));
      && state.currentStage == SentencesSelected
      && (state.pipelineId == "" ==>
            r == Err(PipelineIdMissing)
            && state.artifacts == old(state.artifacts)["selected_sentences" := Spans(selected)]
            && host.files == old(host.files))
      && (state.pipelineId != "" ==>
            r == Ok(selected)
            && state.artifacts == old(state.artifacts)["selected_sentences" := Spans(selected)]
                                   ["sentence_selection_output" := Str(SelectionOutputPath(state.pipelineId))]
            && host.files == old(host.files) + {SelectionOutputPath(state.pipelineId)})
    ensures r.Ok? ==> r == SelectSentences(sentences, tone, scorer, topK)
    ensures old(host.files) <= host.files
  {
    if tone !in Tones {
      return Err(UnsupportedTone(tone));
    }
    var query := ToneQuery(tone);
    host.Invoke(Score(query, Texts(sentences)));
    if scorer.ScorerError? {
      return Err(ScoringFailed(scorer.cause));
    }
    var ranked := TopK(sentences, scorer.values, topK);
    var selected := MergeCloseSegments(ranked);
    r := RecordSelection(state, host, selected);
  }

  /** Records the selection in the run state, then, once the pipeline id is
      known to be present, writes the selection file and records its path. */
  method RecordSelection(state: RunState, host: Host, selected: seq<Span>) returns (r: Result<seq<Span>, Failure>)
    modifies state, host
    ensures state.currentStage == SentencesSelected && host.calls == old(host.calls)
    ensures state.pipelineId == "" ==>
      r == Err(PipelineIdMissing)
      && state.artifacts == old(state.artifacts)["selected_sentences" := Spans(selected)]
      && host.files == old(host.files)
    ensures state.pipelineId != "" ==>
      r == Ok(selected)
      && state.artifacts == old(state.artifacts)["selected_sentences" := Spans(selected)]
                             ["sentence_selection_output" := Str(SelectionOutputPath(state.pipelineId))]
      && host.files == old(host.files) + {SelectionOutputPath(state.pipelineId)}
  {
    state.artifacts := state.artifacts["selected_sentences" := Spans(selected)];
    state.currentStage := SentencesSelected;
    if state.pipelineId == "" {
      return Err(PipelineIdMissing);
    }
    var outPath := SelectionOutputPath(state.pipelineId);
    host.files := host.files + {outPath};
    state.artifacts := state.artifacts["sentence_selection_output" := Str(outPath)];
    r := Ok(selected);
  }
}
