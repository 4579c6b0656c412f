/** The nested loops of the list matchers' `makeMatch`: for each requirement
    item (job side) scan the candidate items (resume side) and record a pair
    of model scores. Education, tool, certification and designation pick
    greedily and consume the chosen candidate; skill takes independent
    maxima. The embedding models and `cosine_similarity` are the two
    similarity oracles passed in. */
module Selection {

  import opened Wrappers
  import opened Text
  import opened Scoring

  /** Cosine similarity of the two models' embeddings of two texts; a cosine
      always lies in [-1, 1]. */
  type Cosine = f: (string, string) -> real | forall a: string, b: string :: -1.0 <= f(a, b) <= 1.0
    witness (a: string, b: string) => 0.0

  /** How a greedy matcher differs from the others.
      `model2Default`: the model-2 score recorded when no candidate wins
      (0.0 for education, 1 for tool, certification and designation).
      `keyStripped`: whether the consumption record and the emptiness test
      use the stripped candidate (education, tool, designation) or the raw
      one (certification). Either way, the test for "already consumed" looks
      up the raw candidate text. */
  datatype Policy = Policy(model2Default: real, keyStripped: bool)

  /** What the scan over the candidates has found so far. */
  datatype Best = Best(model1: real, model2: real, key: Option<string>)

  /** The text recorded and tested for emptiness. */
  function KeyText(p: Policy, raw: string): string
  {
    if p.keyStripped then Strip(raw) else raw
  }

  /** A candidate the inner loop scores rather than `continue`s past. */
  predicate Eligible(p: Policy, job: string, raw: string, matched: set<string>)
  {
    raw !in matched && job != "" && KeyText(p, raw) != ""
  }

  function Score1(sim1: Cosine, job: string, raw: string): real
  {
    Clamp0(sim1(job, Strip(raw)))
  }

  function Score2(sim2: Cosine, job: string, raw: string): real
  {
    Clamp0(sim2(job, Strip(raw)))
  }

  // ---------------------------------------------------------------------------
  // Greedy selection with consumption
  // ---------------------------------------------------------------------------

  /** One turn of the inner loop. */
  function Consider(p: Policy, sim1: Cosine, sim2: Cosine, job: string, raw: string, matched: set<string>, acc: Best): Best
  {
    if !Eligible(p, job, raw, matched) then acc
    else
      var s1 := Score1(sim1, job, raw);
      if s1 > acc.model1 then Best(s1, Score2(sim2, job, raw), Some(KeyText(p, raw))) else acc
  }

  /** The inner loop after the first `n` candidates. */
  function ScanPrefix(p: Policy, sim1: Cosine, sim2: Cosine, job: string, cands: seq<string>, matched: set<string>, n: nat): Best
    requires n <= |cands|
  {
    if n == 0 then Best(0.0, p.model2Default, None)
    else Consider(p, sim1, sim2, job, cands[n - 1], matched, ScanPrefix(p, sim1, sim2, job, cands, matched, n - 1))
  }

  /** The outer loop's state: the two score lists and the consumed keys. */
  datatype Matching = Matching(model1Scores: seq<real>, model2Scores: seq<real>, matched: set<string>)

  /** The outer loop after the first `n` requirement items. */
  function MatchPrefix(p: Policy, sim1: Cosine, sim2: Cosine, jobs: seq<string>, cands: seq<string>, n: nat): (m: Matching)
    requires n <= |jobs|
    ensures |m.model1Scores| == n && |m.model2Scores| == n
  {
    if n == 0 then Matching([], [], {})
    else
      var prev := MatchPrefix(p, sim1, sim2, jobs, cands, n - 1);
      var best := ScanPrefix(p, sim1, sim2, Strip(jobs[n - 1]), cands, prev.matched, |cands|);
      Matching(prev.model1Scores + [best.model1], prev.model2Scores + [best.model2],
               if best.key.Some? then prev.matched + {best.key.value} else prev.matched)
  }

  function MatchAll(p: Policy, sim1: Cosine, sim2: Cosine, jobs: seq<string>, cands: seq<string>): Matching
  {
    MatchPrefix(p, sim1, sim2, jobs, cands, |jobs|)
  }

  /** The greedy nested loop. */
  method GreedyMatch(p: Policy, sim1: Cosine, sim2: Cosine, jobs: seq<string>, cands: seq<string>)
    returns (model1Scores: seq<real>, model2Scores: seq<real>)
    ensures model1Scores == MatchAll(p, sim1, sim2, jobs, cands).model1Scores
    ensures model2Scores == MatchAll(p, sim1, sim2, jobs, cands).model2Scores
  {
    model1Scores, model2Scores := [], [];
    var matched: set<string> := {};
    for i := 0 to |jobs|
      invariant MatchPrefix(p, sim1, sim2, jobs, cands, i) == Matching(model1Scores, model2Scores, matched)
    {
      var job := Strip(jobs[i]);
      var maxModel1, maxModel2 := 0.0, p.model2Default;
      var currBest: Option<string> := None;
      for j := 0 to |cands|
        invariant ScanPrefix(p, sim1, sim2, job, cands, matched, j) == Best(maxModel1, maxModel2, currBest)
      {
        var raw := cands[j];
        if raw in matched {
          continue;
        }
        var key := if p.keyStripped then Strip(raw) else raw;
        if job == "" || key == "" {
          continue;
        }
        var similarity1 := Clamp0(sim1(job, Strip(raw)));
        var similarity2 := Clamp0(sim2(job, Strip(raw)));
        if similarity1 > maxModel1 {
          maxModel1, maxModel2, currBest := similarity1, similarity2, Some(key);
        }
      }
      model1Scores, model2Scores := model1Scores + [maxModel1], model2Scores + [maxModel2];
      if currBest.Some? {
        matched := matched + {currBest.value};
      }
    }
  }

  /** What the inner loop finds: with no candidate of positive model-1
      score the default pair and no winner; otherwise the FIRST candidate
      whose model-1 score is the greatest, with its own model-2 score. */
  lemma {:induction false} ScanSelectsFirstGreatest(p: Policy, sim1: Cosine, sim2: Cosine, job: string, cands: seq<string>, matched: set<string>, n: nat)
    requires n <= |cands|
    ensures var b := ScanPrefix(p, sim1, sim2, job, cands, matched, n);
      b.key.None? ==>
        b.model1 == 0.0 && b.model2 == p.model2Default
        && forall k :: 0 <= k < n && Eligible(p, job, cands[k], matched) ==> Score1(sim1, job, cands[k]) == 0.0
    ensures var b := ScanPrefix(p, sim1, sim2, job, cands, matched, n);
      b.key.Some? ==>
        exists w :: 0 <= w < n && Eligible(p, job, cands[w], matched)
          && b.key.value == KeyText(p, cands[w])
          && b.model1 == Score1(sim1, job, cands[w]) > 0.0
          && b.model2 == Score2(sim2, job, cands[w])
          && (forall k :: 0 <= k < w && Eligible(p, job, cands[k], matched) ==> Score1(sim1, job, cands[k]) < b.model1)
          && (forall k :: 0 <= k < n && Eligible(p, job, cands[k], matched) ==> Score1(sim1, job, cands[k]) <= b.model1)
  {
    if n > 0 {
      ScanSelectsFirstGreatest(p, sim1, sim2, job, cands, matched, n - 1);
      var prev := ScanPrefix(p, sim1, sim2, job, cands, matched, n - 1);
      var b := ScanPrefix(p, sim1, sim2, job, cands, matched, n);
      if b != prev {
        var w := n - 1;
        assert b.key.Some? && Eligible(p, job, cands[w], matched) && b.model1 == Score1(sim1, job, cands[w]);
        assert prev.model1 >= 0.0;
        forall k | 0 <= k < w && Eligible(p, job, cands[k], matched)
          ensures Score1(sim1, job, cands[k]) < b.model1
        {
        }
      } else if prev.key.Some? {
        var w :| 0 <= w < n - 1 && Eligible(p, job, cands[w], matched)
          && prev.key.value == KeyText(p, cands[w])
          && prev.model1 == Score1(sim1, job, cands[w]) > 0.0
          && prev.model2 == Score2(sim2, job, cands[w])
          && (forall k :: 0 <= k < w && Eligible(p, job, cands[k], matched) ==> Score1(sim1, job, cands[k]) < prev.model1)
          && (forall k :: 0 <= k < n - 1 && Eligible(p, job, cands[k], matched) ==> Score1(sim1, job, cands[k]) <= prev.model1);
        assert Eligible(p, job, cands[n - 1], matched) ==> Score1(sim1, job, cands[n - 1]) <= b.model1;
      } else {
        assert Eligible(p, job, cands[n - 1], matched) ==> Score1(sim1, job, cands[n - 1]) <= 0.0;
      }
    }
  }

  /** Requirement item `k`'s scores are fixed once the outer loop passes it. */
  lemma {:induction false} MatchPrefixKeeps(p: Policy, sim1: Cosine, sim2: Cosine, jobs: seq<string>, cands: seq<string>, k: nat, n: nat)
    requires k < n <= |jobs|
    ensures MatchPrefix(p, sim1, sim2, jobs, cands, n).model1Scores[k] == MatchPrefix(p, sim1, sim2, jobs, cands, k + 1).model1Scores[k]
    ensures MatchPrefix(p, sim1, sim2, jobs, cands, n).model2Scores[k] == MatchPrefix(p, sim1, sim2, jobs, cands, k + 1).model2Scores[k]
    ensures MatchPrefix(p, sim1, sim2, jobs, cands, k).matched <= MatchPrefix(p, sim1, sim2, jobs, cands, n).matched
  {
    if n > k + 1 {
      MatchPrefixKeeps(p, sim1, sim2, jobs, cands, k, n - 1);
    }
  }

  /** Requirement item `k` is scored by the inner loop over the candidates
      not consumed by the items before it. */
  lemma ItemScores(p: Policy, sim1: Cosine, sim2: Cosine, jobs: seq<string>, cands: seq<string>, k: nat)
    requires k < |jobs|
    ensures var b := ScanPrefix(p, sim1, sim2, Strip(jobs[k]), cands, MatchPrefix(p, sim1, sim2, jobs, cands, k).matched, |cands|);
      MatchAll(p, sim1, sim2, jobs, cands).model1Scores[k] == b.model1
      && MatchAll(p, sim1, sim2, jobs, cands).model2Scores[k] == b.model2
  {
    MatchPrefixKeeps(p, sim1, sim2, jobs, cands, k, |jobs|);
  }

  /** The consumption record only ever holds stripped text when keyed by
      stripped text. */
  lemma {:induction false} MatchedAreStripped(p: Policy, sim1: Cosine, sim2: Cosine, jobs: seq<string>, cands: seq<string>, n: nat)
    requires p.keyStripped && n <= |jobs|
    ensures forall key :: key in MatchPrefix(p, sim1, sim2, jobs, cands, n).matched ==> Stripped(key)
  {
    if n > 0 {
      MatchedAreStripped(p, sim1, sim2, jobs, cands, n - 1);
      var prev := MatchPrefix(p, sim1, sim2, jobs, cands, n - 1);
      var b := ScanPrefix(p, sim1, sim2, Strip(jobs[n - 1]), cands, prev.matched, |cands|);
      ScanSelectsFirstGreatest(p, sim1, sim2, Strip(jobs[n - 1]), cands, prev.matched, |cands|);
      if b.key.Some? {
        var w :| 0 <= w < |cands| && b.key.value == KeyText(p, cands[w]);
        assert p.keyStripped;
        assert KeyText(p, cands[w]) == Strip(cands[w]);
        assert b.key.value == Strip(cands[w]);
        StripSpec(cands[w]);
        assert MatchPrefix(p, sim1, sim2, jobs, cands, n).matched == prev.matched + {b.key.value};
      }
    }
  }

  /** Keyed by stripped text but looked up by raw text: a candidate with
      whitespace at either end is never skipped as consumed, however often
      it has already been chosen. */
  lemma PaddedCandidatesNeverConsumed(p: Policy, sim1: Cosine, sim2: Cosine, jobs: seq<string>, cands: seq<string>, n: nat, raw: string)
    requires p.keyStripped && n <= |jobs| && !Stripped(raw)
    ensures raw !in MatchPrefix(p, sim1, sim2, jobs, cands, n).matched
  {
    MatchedAreStripped(p, sim1, sim2, jobs, cands, n);
  }

  /** Keyed and looked up by the same raw text (certification): each
      candidate text wins for at most one requirement item. */
  lemma {:induction false} RawKeysAssignOnce(p: Policy, sim1: Cosine, sim2: Cosine, jobs: seq<string>, cands: seq<string>, j: nat, k: nat)
    requires !p.keyStripped && j < k < |jobs|
    ensures var mj := MatchPrefix(p, sim1, sim2, jobs, cands, j).matched;
      var mk := MatchPrefix(p, sim1, sim2, jobs, cands, k).matched;
      var bj := ScanPrefix(p, sim1, sim2, Strip(jobs[j]), cands, mj, |cands|);
      var bk := ScanPrefix(p, sim1, sim2, Strip(jobs[k]), cands, mk, |cands|);
      bj.key.Some? && bk.key.Some? ==> bj.key.value != bk.key.value
  {
    var mj := MatchPrefix(p, sim1, sim2, jobs, cands, j).matched;
    var mk := MatchPrefix(p, sim1, sim2, jobs, cands, k).matched;
    var bj := ScanPrefix(p, sim1, sim2, Strip(jobs[j]), cands, mj, |cands|);
    var bk := ScanPrefix(p, sim1, sim2, Strip(jobs[k]), cands, mk, |cands|);
    if bj.key.Some? && bk.key.Some? {
      if j + 1 < k {
        MatchPrefixKeeps(p, sim1, sim2, jobs, cands, j + 1, k);
      }
      assert bj.key.value in MatchPrefix(p, sim1, sim2, jobs, cands, j + 1).matched;
      ScanSelectsFirstGreatest(p, sim1, sim2, Strip(jobs[k]), cands, mk, |cands|);
      var w :| 0 <= w < |cands| && Eligible(p, Strip(jobs[k]), cands[w], mk) && bk.key.value == KeyText(p, cands[w]);
      assert bk.key.value !in mk;
    }
  }

  // ---------------------------------------------------------------------------
  // Independent maxima (skill)
  // ---------------------------------------------------------------------------

  function Max(a: real, b: real): real
  {
    if a >= b then a else b
  }

  /** The skill matcher's inner loop after `n` candidates: running maxima of
      both scores, the model-1 maximum starting at 0 and the model-2 one at 1. */
  function IndependentScan(sim1: Cosine, sim2: Cosine, job: string, cands: seq<string>, n: nat): (r: (real, real))
    requires n <= |cands|
  {
    if n == 0 then (0.0, 1.0)
    else
      var prev := IndependentScan(sim1, sim2, job, cands, n - 1);
      var cand := Strip(cands[n - 1]);
      if job == "" || cand == "" then prev
      else (Max(prev.0, Clamp0(sim1(job, cand))), Max(prev.1, Clamp0(sim2(job, cand))))
  }

  /** The skill matcher's outer loop after `n` requirement items. */
  function IndependentPrefix(sim1: Cosine, sim2: Cosine, jobs: seq<string>, cands: seq<string>, n: nat): (m: (seq<real>, seq<real>))
    requires n <= |jobs|
    ensures |m.0| == n && |m.1| == n
  {
    if n == 0 then ([], [])
    else
      var prev := IndependentPrefix(sim1, sim2, jobs, cands, n - 1);
      var r := IndependentScan(sim1, sim2, Strip(jobs[n - 1]), cands, |cands|);
      (prev.0 + [r.0], prev.1 + [r.1])
  }

  /** The skill matcher's nested loop. */
  method IndependentMatch(sim1: Cosine, sim2: Cosine, jobs: seq<string>, cands: seq<string>)
    returns (model1Scores: seq<real>, model2Scores: seq<real>)
    ensures (model1Scores, model2Scores) == IndependentPrefix(sim1, sim2, jobs, cands, |jobs|)
  {
    model1Scores, model2Scores := [], [];
    for i := 0 to |jobs|
      invariant IndependentPrefix(sim1, sim2, jobs, cands, i) == (model1Scores, model2Scores)
    {
      var job := Strip(jobs[i]);
      var maxModel1, maxModel2 := 0.0, 1.0;
      for j := 0 to |cands|
        invariant IndependentScan(sim1, sim2, job, cands, j) == (maxModel1, maxModel2)
      {
        var cand := Strip(cands[j]);
        if job == "" || cand == "" {
          continue;
        }
        maxModel1 := Max(maxModel1, Clamp0(sim1(job, cand)));
        maxModel2 := Max(maxModel2, Clamp0(sim2(job, cand)));
      }
      model1Scores, model2Scores := model1Scores + [maxModel1], model2Scores + [maxModel2];
    }
  }

  /** What the skill scan computes: the model-1 score is the greatest
      clamped similarity over the non-empty candidates (0 when there are
      none or the requirement item is empty), and the model-2 score is at
      least 1 and at most 1 given cosines, so exactly 1. */
  lemma {:induction false} IndependentScanIsMaximum(sim1: Cosine, sim2: Cosine, job: string, cands: seq<string>, n: nat)
    requires n <= |cands|
    ensures var r := IndependentScan(sim1, sim2, job, cands, n);
      r.1 == 1.0 && 0.0 <= r.0 <= 1.0
      && (forall k :: 0 <= k < n && job != "" && Strip(cands[k]) != "" ==> Clamp0(sim1(job, Strip(cands[k]))) <= r.0)
      && (r.0 == 0.0 || exists k :: 0 <= k < n && job != "" && Strip(cands[k]) != "" && r.0 == Clamp0(sim1(job, Strip(cands[k]))))
  {
    if n > 0 {
      IndependentScanIsMaximum(sim1, sim2, job, cands, n - 1);
    }
  }

  /** An empty requirement item, or one with no non-empty candidate, scores
      0 on model 1 and so never reaches the ensemble. */
  lemma EmptyItemScoresZero(sim1: Cosine, sim2: Cosine, job: string, cands: seq<string>)
    requires job == "" || forall k :: 0 <= k < |cands| ==> Strip(cands[k]) == ""
    ensures IndependentScan(sim1, sim2, job, cands, |cands|).0 == 0.0
  {
    IndependentScanIsMaximum(sim1, sim2, job, cands, |cands|);
  }

  /** No consumption: each requirement item is scored as if it were alone. */
  lemma {:induction false} IndependentItems(sim1: Cosine, sim2: Cosine, jobs: seq<string>, cands: seq<string>, k: nat, n: nat)
    requires k < n <= |jobs|
    ensures IndependentPrefix(sim1, sim2, jobs, cands, n).0[k] == IndependentScan(sim1, sim2, Strip(jobs[k]), cands, |cands|).0
    ensures IndependentPrefix(sim1, sim2, jobs, cands, n).1[k] == IndependentScan(sim1, sim2, Strip(jobs[k]), cands, |cands|).1
  {
    if n > k + 1 {
      IndependentItems(sim1, sim2, jobs, cands, k, n - 1);
    }
  }

  // ---------------------------------------------------------------------------
  // Ranges of the recorded scores
  // ---------------------------------------------------------------------------

  /** The inner loop's pair lies in [0, 1]: similarities are clamped at 0
      and a cosine never exceeds 1. */
  lemma {:induction false} ScanInUnit(p: Policy, sim1: Cosine, sim2: Cosine, job: string, cands: seq<string>, matched: set<string>, n: nat)
    requires n <= |cands| && InUnit(p.model2Default)
    ensures InUnit(ScanPrefix(p, sim1, sim2, job, cands, matched, n).model1)
    ensures InUnit(ScanPrefix(p, sim1, sim2, job, cands, matched, n).model2)
  {
    if n > 0 {
      ScanInUnit(p, sim1, sim2, job, cands, matched, n - 1);
    }
  }

  /** Every score the greedy matchers record lies in [0, 1]. */
  lemma {:induction false} GreedyScoresInUnit(p: Policy, sim1: Cosine, sim2: Cosine, jobs: seq<string>, cands: seq<string>, n: nat)
    requires n <= |jobs| && InUnit(p.model2Default)
    ensures AllInRange(MatchPrefix(p, sim1, sim2, jobs, cands, n).model1Scores, 0.0, 1.0)
    ensures AllInRange(MatchPrefix(p, sim1, sim2, jobs, cands, n).model2Scores, 0.0, 1.0)
  {
    if n > 0 {
      GreedyScoresInUnit(p, sim1, sim2, jobs, cands, n - 1);
      var prev := MatchPrefix(p, sim1, sim2, jobs, cands, n - 1);
      ScanInUnit(p, sim1, sim2, Strip(jobs[n - 1]), cands, prev.matched, |cands|);
    }
  }

  /** The skill matcher's model-1 scores lie in [0, 1] and its model-2
      scores are all exactly 1. */
  lemma {:induction false} IndependentScoresInUnit(sim1: Cosine, sim2: Cosine, jobs: seq<string>, cands: seq<string>, n: nat)
    requires n <= |jobs|
    ensures AllInRange(IndependentPrefix(sim1, sim2, jobs, cands, n).0, 0.0, 1.0)
    ensures forall k :: 0 <= k < n ==> IndependentPrefix(sim1, sim2, jobs, cands, n).1[k] == 1.0
  {
    if n > 0 {
      IndependentScoresInUnit(sim1, sim2, jobs, cands, n - 1);
      IndependentScanIsMaximum(sim1, sim2, Strip(jobs[n - 1]), cands, |cands|);
    }
  }
}
