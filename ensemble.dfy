/** The `*Similarity` classes of the list-valued categories (education,
    skill, tool, certification, designation). They hold two parallel score
    lists, rewrite them with a per-category boost/damp rule, and append the
    mean of every pair whose scores are both non-zero to `ensembleScore`.
    The five classes differ only in the rule, so one class carries it as a
    constant. */
module Ensemble {

  import opened Wrappers
  import opened Scoring

  /** Which category's `hardEnsemble` rule applies. */
  datatype Rule = EducationRule | SkillRule | ToolRule | CertificationRule | DesignationRule

  const NotSetMessage: string := "Model scores are not set."
  const NotCalculatedMessage: string := "Ensemble score has not been calculated."
  const IndexMessage: string := "list index out of range"

  // ---------------------------------------------------------------------------
  // The per-pair rules
  // ---------------------------------------------------------------------------

  /** What the rule writes to the model-1 score using that score alone; for
      the skill, tool and designation rules this is also what has already
      been written when reading the model-2 score then fails. */
  function AdjustFirst(rule: Rule, a: real): real
  {
    match rule
    case SkillRule => if a > 0.7 then Min1(a * 1.2) else a
    case ToolRule => if a < 0.5 then Min1(a * 0.7) else a
    case DesignationRule => if a < 0.5 then Min1(a * 0.7) else a
    case _ => a
  }

  /** The rewrite `hardEnsemble` applies to one pair `(m1[i], m2[i])`. */
  function Adjust(rule: Rule, a: real, b: real): (r: (real, real))
    // A score is zero afterwards exactly when it was zero before, so the
    // rewrite never changes which pairs the averaging skips.
    ensures (r.0 == 0.0 <==> a == 0.0) && (r.1 == 0.0 <==> b == 0.0)
    // Scores in [0, 1] stay in [0, 1].
    ensures InUnit(a) && InUnit(b) ==> InUnit(r.0) && InUnit(r.1)
    // No rule ever raises a score above 1 that was not already above 1.
    ensures a <= 1.0 ==> r.0 <= 1.0
    ensures b <= 1.0 ==> r.1 <= 1.0
  {
    match rule
    case EducationRule =>
      if a > b && b > 0.5 then (Min1(a * 1.2), b)
      else if b > a && a > 0.5 then (a, Min1(b * 1.2))
      else (Min1(a * 0.7), Min1(b * 0.7))
    case SkillRule => (AdjustFirst(rule, a), if b < 0.3 then b * 0.8 else b)
    case ToolRule => (AdjustFirst(rule, a), if b < 0.5 then Min1(b * 0.7) else b)
    case DesignationRule => (AdjustFirst(rule, a), if b < 0.5 then Min1(b * 0.7) else b)
    case CertificationRule => (a, b)
  }

  /** The model-1 list after the first `n` pairs were rewritten. */
  function Adjusted1(rule: Rule, m1: seq<real>, m2: seq<real>, n: nat): (r: seq<real>)
    requires n <= |m1| && n <= |m2|
    ensures |r| == |m1|
  {
    seq(|m1|, k requires 0 <= k < |m1| => if k < n then Adjust(rule, m1[k], m2[k]).0 else m1[k])
  }

  /** The model-2 list after the first `n` pairs were rewritten. */
  function Adjusted2(rule: Rule, m1: seq<real>, m2: seq<real>, n: nat): (r: seq<real>)
    requires n <= |m1| && n <= |m2|
    ensures |r| == |m2|
  {
    seq(|m2|, k requires 0 <= k < |m2| => if k < n then Adjust(rule, m1[k], m2[k]).1 else m2[k])
  }

  // ---------------------------------------------------------------------------
  // Skip-zero averaging
  // ---------------------------------------------------------------------------

  /** The values `averageEnsemble` appends for the first `n` positions: the
      mean of each pair in which both scores are non-zero, in order. */
  function Averages(m1: seq<real>, m2: seq<real>, n: nat): (avg: seq<real>)
    requires n <= |m1| && n <= |m2|
    ensures |avg| <= n
    ensures forall j :: 0 <= j < |avg| ==>
      exists k :: 0 <= k < n && m1[k] != 0.0 && m2[k] != 0.0 && avg[j] == (m1[k] + m2[k]) / 2.0
  {
    if n == 0 then []
    else
      var prev := Averages(m1, m2, n - 1);
      if m1[n - 1] != 0.0 && m2[n - 1] != 0.0 then prev + [(m1[n - 1] + m2[n - 1]) / 2.0] else prev
  }

  /** How many of the first `n` pairs have two non-zero scores. */
  function NonZeroPairs(m1: seq<real>, m2: seq<real>, n: nat): nat
    requires n <= |m1| && n <= |m2|
  {
    if n == 0 then 0
    else NonZeroPairs(m1, m2, n - 1) + (if m1[n - 1] != 0.0 && m2[n - 1] != 0.0 then 1 else 0)
  }

  /** `averageEnsemble` reads `m2[i]` for a non-zero `m1[i]` past the end of
      `m2`: Python's `and` only looks at `m2[i]` when `m1[i]` is truthy. */
  predicate Overruns(m1: seq<real>, m2: seq<real>)
  {
    exists i :: |m2| <= i < |m1| && m1[i] != 0.0
  }

  function MinLen(m1: seq<real>, m2: seq<real>): nat
  {
    if |m1| <= |m2| then |m1| else |m2|
  }

  // ---------------------------------------------------------------------------
  // The class's state and its transitions, as values
  // ---------------------------------------------------------------------------

  /** The three fields of a `*Similarity` object; `None` is Python's `None`. */
  datatype SimState = SimState(model1Score: Option<seq<real>>, model2Score: Option<seq<real>>, ensembleScore: seq<real>)

  /** `averageEnsemble()`: the new state and whether it raised. */
  function AverageStep(st: SimState): (SimState, Result<()>)
  {
    if st.model1Score.None? || st.model2Score.None? then (st, Err(ValueError(NotSetMessage)))
    else
      var m1, m2 := st.model1Score.value, st.model2Score.value;
      (st.(ensembleScore := st.ensembleScore + Averages(m1, m2, MinLen(m1, m2))),
       if Overruns(m1, m2) then Err(IndexError(IndexMessage)) else Ok(()))
  }

  /** `hardEnsemble()`: rewrite every pair in place, then average. When
      `m1` is longer than `m2` the loop fails at index `|m2|` with the
      earlier pairs already rewritten (and, for the rules that test `m1[i]`
      on its own first, `m1[|m2|]` too). */
  function HardStep(rule: Rule, st: SimState): (SimState, Result<()>)
  {
    if st.model1Score.None? || st.model2Score.None? then (st, Err(ValueError(NotSetMessage)))
    else if rule == CertificationRule then AverageStep(st)
    else
      var m1, m2 := st.model1Score.value, st.model2Score.value;
      if |m1| <= |m2| then
        AverageStep(SimState(Some(Adjusted1(rule, m1, m2, |m1|)), Some(Adjusted2(rule, m1, m2, |m1|)), st.ensembleScore))
      else
        var a1 := Adjusted1(rule, m1, m2, |m2|);
        (SimState(Some(a1[|m2| := AdjustFirst(rule, m1[|m2|])]), Some(Adjusted2(rule, m1, m2, |m2|)), st.ensembleScore),
         Err(IndexError(IndexMessage)))
  }

  /** `getEnsembleScore()`: a non-empty list is returned as it is; an empty
      one makes it run `hardEnsemble` again, and a `ValueError` from that is
      reported as "Ensemble score has not been calculated.". */
  function EnsembleStep(rule: Rule, st: SimState): (SimState, Result<seq<real>>)
  {
    if st.ensembleScore != [] then (st, Ok(st.ensembleScore))
    else
      var (next, r) := HardStep(rule, st);
      if r.Err? then (next, if r.error.ValueError? then Err(ValueError(NotCalculatedMessage)) else Err(r.error))
      else (next, Ok(next.ensembleScore))
  }

  // ---------------------------------------------------------------------------
  // Properties of the transitions
  // ---------------------------------------------------------------------------

  lemma {:induction false} AveragesCount(m1: seq<real>, m2: seq<real>, n: nat)
    requires n <= |m1| && n <= |m2|
    ensures |Averages(m1, m2, n)| == NonZeroPairs(m1, m2, n)
  {
    if n > 0 {
      AveragesCount(m1, m2, n - 1);
    }
  }

  /** The boost/damp rewrite never changes how many pairs are averaged. */
  lemma {:induction false} AdjustKeepsAveragedPairs(rule: Rule, m1: seq<real>, m2: seq<real>, n: nat, k: nat)
    requires k <= n <= |m1| && n <= |m2|
    ensures NonZeroPairs(Adjusted1(rule, m1, m2, n), Adjusted2(rule, m1, m2, n), k) == NonZeroPairs(m1, m2, k)
  {
    if k > 0 {
      AdjustKeepsAveragedPairs(rule, m1, m2, n, k - 1);
      var p := Adjust(rule, m1[k - 1], m2[k - 1]);
      assert Adjusted1(rule, m1, m2, n)[k - 1] == p.0;
      assert Adjusted2(rule, m1, m2, n)[k - 1] == p.1;
    }
  }

  /** Pairs of scores in `[0, 1]` average to values in `(0, 1]`. */
  lemma {:induction false} AveragesInUnit(m1: seq<real>, m2: seq<real>, n: nat)
    requires n <= |m1| && n <= |m2|
    requires AllInRange(m1, 0.0, 1.0) && AllInRange(m2, 0.0, 1.0)
    ensures AllInRange(Averages(m1, m2, n), 0.0, 1.0)
    ensures forall j :: 0 <= j < |Averages(m1, m2, n)| ==> Averages(m1, m2, n)[j] > 0.0
  {
    if n > 0 {
      AveragesInUnit(m1, m2, n - 1);
      var prev := Averages(m1, m2, n - 1);
      if m1[n - 1] != 0.0 && m2[n - 1] != 0.0 {
        var x := (m1[n - 1] + m2[n - 1]) / 2.0;
        assert 0.0 < x <= 1.0;
        var avg := prev + [x];
        assert Averages(m1, m2, n) == avg;
        forall j | 0 <= j < |avg| ensures 0.0 < avg[j] <= 1.0 {
          if j == |prev| {
            assert avg[j] == x;
          } else {
            assert avg[j] == prev[j];
          }
        }
      }
    }
  }

  /** `hardEnsemble` on two equally long lists in `[0, 1]`: it succeeds,
      keeps both lists in `[0, 1]`, appends one value in `(0, 1]` per pair
      of non-zero scores and keeps everything that was already there. */
  lemma HardStepOnUnitScores(rule: Rule, st: SimState)
    requires st.model1Score.Some? && st.model2Score.Some?
    requires |st.model1Score.value| == |st.model2Score.value|
    requires AllInRange(st.model1Score.value, 0.0, 1.0) && AllInRange(st.model2Score.value, 0.0, 1.0)
    ensures HardStep(rule, st).1 == Ok(())
    ensures var next := HardStep(rule, st).0;
      next.model1Score.Some? && next.model2Score.Some?
      && AllInRange(next.model1Score.value, 0.0, 1.0) && AllInRange(next.model2Score.value, 0.0, 1.0)
      && |next.model1Score.value| == |next.model2Score.value| == |st.model1Score.value|
      && NonZeroPairs(next.model1Score.value, next.model2Score.value, |st.model1Score.value|)
         == NonZeroPairs(st.model1Score.value, st.model2Score.value, |st.model1Score.value|)
      && |next.ensembleScore| == |st.ensembleScore| + NonZeroPairs(st.model1Score.value, st.model2Score.value, |st.model1Score.value|)
      && next.ensembleScore[..|st.ensembleScore|] == st.ensembleScore
      && forall j :: |st.ensembleScore| <= j < |next.ensembleScore| ==> 0.0 < next.ensembleScore[j] <= 1.0
  {
    var m1, m2 := st.model1Score.value, st.model2Score.value;
    var n := |m1|;
    var a1, a2 := m1, m2;
    if rule != CertificationRule {
      a1, a2 := Adjusted1(rule, m1, m2, n), Adjusted2(rule, m1, m2, n);
      forall k | 0 <= k < n ensures InUnit(a1[k]) && InUnit(a2[k]) {
        assert InUnit(m1[k]) && InUnit(m2[k]);
      }
      AdjustKeepsAveragedPairs(rule, m1, m2, n, n);
    }
    assert !Overruns(a1, a2);
    AveragesCount(a1, a2, n);
    AveragesInUnit(a1, a2, n);
    var next := HardStep(rule, st).0;
    assert next.ensembleScore == st.ensembleScore + Averages(a1, a2, n);
  }

  /** The education rule damps two equal perfect scores to 0.7 each, so the
      pair contributes 0.7. */
  lemma EducationEqualScoresDamp()
    ensures HardStep(EducationRule, SimState(Some([1.0]), Some([1.0]), []))
         == (SimState(Some([0.7]), Some([0.7]), [0.7]), Ok(()))
  {
    var m := [1.0];
    var z := [0.7];
    var empty: seq<real> := [];
    var st := SimState(Some(m), Some(m), empty);
    assert Adjust(EducationRule, 1.0, 1.0) == (0.7, 0.7);
    var a1, a2 := Adjusted1(EducationRule, m, m, 1), Adjusted2(EducationRule, m, m, 1);
    assert a1[0] == 0.7 && a2[0] == 0.7;
    assert a1 == z && a2 == z;
    assert HardStep(EducationRule, st) == AverageStep(SimState(Some(z), Some(z), empty));
    assert Averages(z, z, 1) == z by {
      assert Averages(z, z, 0) == [];
    }
    assert !Overruns(z, z);
    assert AverageStep(SimState(Some(z), Some(z), empty)) == (SimState(Some(z), Some(z), z), Ok(())) by {
      assert MinLen(z, z) == 1;
      assert empty + z == z;
    }
  }

  /** A second `getEnsembleScore` returns the list the first one produced,
      once that list is non-empty, and changes nothing. */
  lemma EnsembleStepIsStable(rule: Rule, st: SimState)
    requires EnsembleStep(rule, st).1.Ok? && EnsembleStep(rule, st).1.value != []
    ensures var next := EnsembleStep(rule, st).0;
      EnsembleStep(rule, next) == (next, EnsembleStep(rule, st).1)
  {
  }

  // ---------------------------------------------------------------------------
  // The class
  // ---------------------------------------------------------------------------

  class ListSimilarity {
    const rule: Rule
    var model1Score: Option<seq<real>>
    var model2Score: Option<seq<real>>
    var ensembleScore: seq<real>

    function State(): SimState
      reads this
    {
      SimState(model1Score, model2Score, ensembleScore)
    }

    constructor(rule: Rule)
      ensures this.rule == rule && State() == SimState(None, None, [])
    {
      this.rule := rule;
      model1Score := None;
      model2Score := None;
      ensembleScore := [];
    }

    method SetModel1Score(score: seq<real>)
      modifies this
      ensures State() == old(State()).(model1Score := Some(score))
    {
      model1Score := Some(score);
    }

    method SetModel2Score(score: seq<real>)
      modifies this
      ensures State() == old(State()).(model2Score := Some(score))
    {
      model2Score := Some(score);
    }

    method AverageEnsemble() returns (r: Result<()>)
      modifies this
      ensures (State(), r) == AverageStep(old(State()))
    {
      if model1Score.None? || model2Score.None? {
        return Err(ValueError(NotSetMessage));
      }
      var m1, m2 := model1Score.value, model2Score.value;
      var i := 0;
      while i < |m1|
        invariant 0 <= i <= |m1|
        invariant model1Score == Some(m1) && model2Score == Some(m2)
        invariant ensembleScore == old(ensembleScore) + Averages(m1, m2, if i <= |m2| then i else |m2|)
        invariant forall j :: |m2| <= j < i ==> m1[j] == 0.0
      {
        if m1[i] != 0.0 {
          if i >= |m2| {
            return Err(IndexError(IndexMessage));
          }
          if m2[i] != 0.0 {
            ensembleScore := ensembleScore + [(m1[i] + m2[i]) / 2.0];
          }
        }
        i := i + 1;
      }
      return Ok(());
    }

    method HardEnsemble() returns (r: Result<()>)
      modifies this
      ensures (State(), r) == HardStep(rule, old(State()))
    {
      if model1Score.None? || model2Score.None? {
        return Err(ValueError(NotSetMessage));
      }
      if rule == CertificationRule {
        r := AverageEnsemble();
        return;
      }
      var m1, m2 := model1Score.value, model2Score.value;
      ghost var o1, o2 := m1, m2;
      var i := 0;
      while i < |m1|
        invariant 0 <= i <= |o1| && i <= |o2|
        invariant m1 == Adjusted1(rule, o1, o2, i) && m2 == Adjusted2(rule, o1, o2, i)
        invariant State() == old(State())
      {
        if i >= |m2| {
          m1 := m1[i := AdjustFirst(rule, m1[i])];
          model1Score, model2Score := Some(m1), Some(m2);
          return Err(IndexError(IndexMessage));
        }
        var p := Adjust(rule, m1[i], m2[i]);
        m1, m2 := m1[i := p.0], m2[i := p.1];
        i := i + 1;
      }
      model1Score, model2Score := Some(m1), Some(m2);
      r := AverageEnsemble();
    }

    method GetEnsembleScore() returns (r: Result<seq<real>>)
      modifies this
      ensures (State(), r) == EnsembleStep(rule, old(State()))
    {
      if ensembleScore == [] {
        var h := HardEnsemble();
        if h.Err? {
          return if h.error.ValueError? then Err(ValueError(NotCalculatedMessage)) else Err(h.error);
        }
      }
      return Ok(ensembleScore);
    }

    method Reset()
      modifies this
      ensures State() == SimState(None, None, [])
    {
      model1Score := None;
      model2Score := None;
      ensembleScore := [];
    }
  }
}
