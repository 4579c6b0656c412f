/** The `*Matching` classes of the list-valued categories: education,
    skill (the base of technical and soft skill), tools, certification and
    designation. Each splits the sanitized resume and job texts at commas,
    scores every requirement item against the resume items with two
    embedding models, hands the two score lists to its `*Similarity` object
    and reduces the resulting ensemble to one number.

    The five classes share their code line for line up to a handful of
    differences, which `Category` selects: the messages, the selection
    (greedy with consumption, or independent maxima for skill), the default
    model-2 score, the reduction, how models are loaded and whether
    `getSimilarityScore` ever runs `makeMatch`. */
module ListMatching {

  import opened Wrappers
  import opened Text
  import opened Scoring
  import opened Security
  import opened Ensemble
  import opened Selection

  datatype Category = Education | Skill | Tool | Certification | Designation

  function RuleOf(c: Category): Rule
  {
    match c
    case Education => EducationRule
    case Skill => SkillRule
    case Tool => ToolRule
    case Certification => CertificationRule
    case Designation => DesignationRule
  }

  /** The greedy categories' selection parameters: education records 0.0 as
      the model-2 score of an unmatched item and the others 1; certification
      keys consumption by the raw candidate text, the others by the stripped
      one. */
  function PolicyOf(c: Category): Policy
  {
    match c
    case Education => Policy(0.0, true)
    case Certification => Policy(1.0, false)
    case _ => Policy(1.0, true)
  }

  /** The word the messages use for the category. */
  function Noun(c: Category): string
  {
    match c
    case Education => "education"
    case Skill => "skill"
    case Tool => "tools"
    case Certification => "certification"
    case Designation => "designation"
  }

  function EmptyMessage(c: Category): string
  {
    "Resume " + Noun(c) + " and job " + Noun(c) + " cannot be empty."
  }

  const ModelNamesMessage: string := "Model names cannot be empty."
  const InputsNotSetMessage: string := "Inputs are not set"
  const MatchFailedPrefix: string := "Failed to make match: "
  const SharedModelsMessage: string := "Failed to load models"

  /** How `makeMatch` turns the ensemble list into the score: education
      takes `min(1.0, max(scores))`, skill and tools `np.mean(scores)`,
      certification and designation `min(1.0, np.mean(scores))`; an empty
      list gives 0.0. */
  function Reduce(c: Category, scores: seq<real>): real
  {
    if scores == [] then 0.0
    else
      match c
      case Education => Min1(MaxOf(scores))
      case Skill => Mean(scores)
      case Tool => Mean(scores)
      case _ => Min1(Mean(scores))
  }

  /** The emptiness test of `setInputs`: certification only refuses
      `None`, the others refuse every falsy value. */
  predicate PassesEmptinessTest(c: Category, x: PyText)
  {
    if c == Certification then !x.NoneValue? else !x.Falsy()
  }

  /** Python's `not items` for an input list that may be `None`. */
  predicate Unset(items: Option<seq<string>>)
  {
    items.None? || items.value == []
  }

  /** What a `loadModels` that loads two models by name reports. Loading a
      model is a call into a library, so whether it fails, and with what
      message, is the parameter `loaderError`. */
  function LoadModelsOutcome(name1: string, name2: string, loaderError: Option<string>): (r: Result<()>)
    ensures r.Ok? <==> name1 != "" && name2 != "" && loaderError.None?
    ensures (name1 == "" || name2 == "") ==> r == Err(ValueError(ModelNamesMessage))
    ensures name1 != "" && name2 != "" && loaderError.Some? ==> r.Err? && r.error.RuntimeError?
  {
    if name1 == "" || name2 == "" then Err(ValueError(ModelNamesMessage))
    else if loaderError.None? then Ok(())
    else Err(RuntimeError("Failed to load models '" + name1 + "' and '" + name2 + "': " + loaderError.value))
  }

  /** What `loadModels` reports for a category: designation only binds the
      two process-wide models and cannot fail once the names are set.
      Certification has no `loadModels`. */
  function LoadOutcome(c: Category, name1: string, name2: string, loaderError: Option<string>): Result<()>
  {
    LoadModelsOutcome(name1, name2, if c == Designation then None else loaderError)
  }

  /** The values a matcher package's `config.Config()` supplies. */
  datatype PackageConfig = PackageConfig(modelName1: string, modelName2: string, maxInputLength: Option<nat>)

  /** A constructor's name argument: `None` falls back on the configured name. */
  function NameOrDefault(arg: Option<string>, configured: string): string
  {
    if arg.None? then configured else arg.value
  }

  /** `sanitizeInput(text, maxInputLength).split(',')`. */
  function InputItems(text: string, maxInputLength: Option<nat>): Result<seq<string>>
  {
    var s := SanitizeInput(TextInput(text), maxInputLength);
    if s.Err? then Err(s.error) else Ok(Split(s.value, ','))
  }

  // ---------------------------------------------------------------------------
  // The object's state and its transitions, as values
  // ---------------------------------------------------------------------------

  /** The fields of a `*Matching` object that change: whether both models
      are loaded, the two item lists, and the `*Similarity` object. */
  datatype MatcherState = MatcherState(modelsLoaded: bool, resumeItems: Option<seq<string>>, jobItems: Option<seq<string>>, sim: SimState)

  /** `setInputs(resume, job)`. The resume list is stored before the job
      text is sanitized, so a job text over the limit leaves the new resume
      list in place. */
  function SetInputsStep(c: Category, maxInputLength: Option<nat>, st: MatcherState, resume: PyText, job: PyText): (MatcherState, Result<()>)
  {
    if !PassesEmptinessTest(c, resume) || !PassesEmptinessTest(c, job) then (st, Err(ValueError(EmptyMessage(c))))
    else if !resume.Str? then (st, Err(ValueError("Resume " + Noun(c) + " must be a string.")))
    else if !job.Str? then (st, Err(ValueError("Job " + Noun(c) + " must be a string.")))
    else
      var r := InputItems(resume.s, maxInputLength);
      if r.Err? then (st, Err(r.error))
      else
        var st1 := st.(resumeItems := Some(r.value));
        var j := InputItems(job.s, maxInputLength);
        if j.Err? then (st1, Err(j.error))
        else (st1.(jobItems := Some(j.value)), Ok(()))
  }

  /** The two score lists of the nested loop. */
  function Selected(c: Category, sim1: Cosine, sim2: Cosine, jobs: seq<string>, cands: seq<string>): (sel: (seq<real>, seq<real>))
    ensures |sel.0| == |sel.1| == |jobs|
  {
    if c == Skill then IndependentPrefix(sim1, sim2, jobs, cands, |jobs|)
    else
      var m := MatchAll(PolicyOf(c), sim1, sim2, jobs, cands);
      (m.model1Scores, m.model2Scores)
  }

  /** `scores = self.similarity.getEnsembleScore()` and the reduction. */
  function Conclude(c: Category, s: SimState): (SimState, Result<real>)
  {
    var (next, e) := EnsembleStep(RuleOf(c), s);
    (next, if e.Err? then Err(e.error) else Ok(Reduce(c, e.value)))
  }

  /** Everything `makeMatch` does once the models and inputs are there and
      the embedding models answer: select, store both lists,
      `hardEnsemble`, then conclude. `prior` is
      the ensemble list left by earlier calls, which nothing clears. */
  function ScoreStep(c: Category, prior: seq<real>, sim1: Cosine, sim2: Cosine, jobs: seq<string>, cands: seq<string>): (SimState, Result<real>)
  {
    var sel := Selected(c, sim1, sim2, jobs, cands);
    var (s1, h) := HardStep(RuleOf(c), SimState(Some(sel.0), Some(sel.1), prior));
    if h.Err? then (s1, Err(RuntimeError(MatchFailedPrefix + Describe(h.error))))
    else Conclude(c, s1)
  }

  /** `makeMatch()`. `encodeError` is the exception the embedding models
      raise, if they raise one: every category encodes an item before it
      stores anything, so a failing `encode` leaves the similarity object
      as it was and is reported as "Failed to make match: …". */
  function MatchStep(c: Category, name1: string, name2: string, st: MatcherState, sim1: Cosine, sim2: Cosine, loaderError: Option<string>, encodeError: Option<string>): (MatcherState, Result<real>)
  {
    if !st.modelsLoaded && c == Certification then (st, Err(RuntimeError(SharedModelsMessage)))
    else if !st.modelsLoaded && LoadOutcome(c, name1, name2, loaderError).Err? then
      (st, Err(RuntimeError("Failed to load models: " + Describe(LoadOutcome(c, name1, name2, loaderError).error))))
    else
      var loaded := st.(modelsLoaded := true);
      if Unset(st.resumeItems) || Unset(st.jobItems) then (loaded, Err(ValueError(InputsNotSetMessage)))
      else if encodeError.Some? then (loaded, Err(RuntimeError(MatchFailedPrefix + encodeError.value)))
      else
        var (s, r) := ScoreStep(c, st.sim.ensembleScore, sim1, sim2, st.jobItems.value, st.resumeItems.value);
        (loaded.(sim := s), r)
  }

  /** A matcher without models that cannot load them stops before it looks
      at its inputs, and its state is left as it was. */
  lemma LoadFailureStopsMatch(c: Category, name1: string, name2: string, st: MatcherState, sim1: Cosine, sim2: Cosine, loaderError: Option<string>, encodeError: Option<string>)
    requires !st.modelsLoaded && c != Certification && LoadOutcome(c, name1, name2, loaderError).Err?
    ensures MatchStep(c, name1, name2, st, sim1, sim2, loaderError, encodeError)
         == (st, Err(RuntimeError("Failed to load models: " + Describe(LoadOutcome(c, name1, name2, loaderError).error))))
  {
  }

  /** A matcher whose embedding models raise stops after loading the models
      and checking the inputs, before anything is scored: the similarity
      object is left as it was and the exception is wrapped as "Failed to
      make match: …" (the matcher tests make `encode` raise "Encoding
      failed"). */
  lemma EncodeFailureStopsMatch(c: Category, name1: string, name2: string, st: MatcherState, sim1: Cosine, sim2: Cosine, loaderError: Option<string>, e: string)
    requires st.modelsLoaded || (c != Certification && LoadOutcome(c, name1, name2, loaderError).Ok?)
    requires !Unset(st.resumeItems) && !Unset(st.jobItems)
    ensures MatchStep(c, name1, name2, st, sim1, sim2, loaderError, Some(e))
         == (st.(modelsLoaded := true), Err(RuntimeError("Failed to make match: " + e)))
  {
  }

  /** `getSimilarityScore()`. Education tests `ensembleScore is None`, which
      never holds, so it never runs `makeMatch`; the others run it while the
      ensemble list is empty. */
  function GetScoreStep(c: Category, name1: string, name2: string, st: MatcherState, sim1: Cosine, sim2: Cosine, loaderError: Option<string>, encodeError: Option<string>): (MatcherState, Result<real>)
  {
    if c != Education && st.sim.ensembleScore == [] then
      var (st1, m) := MatchStep(c, name1, name2, st, sim1, sim2, loaderError, encodeError);
      if m.Err? then (st1, Err(RuntimeError("Failed to get similarity score: " + Describe(m.error))))
      else
        var (s, r) := Conclude(c, st1.sim);
        (st1.(sim := s), r)
    else
      var (s, r) := Conclude(c, st.sim);
      (st.(sim := s), r)
  }

  // ---------------------------------------------------------------------------
  // Properties
  // ---------------------------------------------------------------------------

  /** `setInputs` accepts exactly two strings that pass the emptiness test
      and fit the length limit; the stored items are the pieces of the
      escaped, stripped text, which they join back to, and unescaping that
      text gives the stripped input. */
  lemma SetInputsAccepts(c: Category, maxInputLength: Option<nat>, st: MatcherState, resume: PyText, job: PyText)
    ensures var (next, r) := SetInputsStep(c, maxInputLength, st, resume, job);
      r.Ok? <==> PassesEmptinessTest(c, resume) && PassesEmptinessTest(c, job) && resume.Str? && job.Str?
                 && maxInputLength.Some? && |resume.s| <= maxInputLength.value && |job.s| <= maxInputLength.value
    ensures var (next, r) := SetInputsStep(c, maxInputLength, st, resume, job);
      r.Ok? ==>
        next.modelsLoaded == st.modelsLoaded && next.sim == st.sim
        && next.resumeItems.Some? && next.jobItems.Some?
        && Unescape(Join(next.resumeItems.value, ',')) == Strip(resume.s)
        && Unescape(Join(next.jobItems.value, ',')) == Strip(job.s)
  {
    var (next, r) := SetInputsStep(c, maxInputLength, st, resume, job);
    if r.Ok? {
      var sr := SanitizeInput(TextInput(resume.s), maxInputLength);
      var sj := SanitizeInput(TextInput(job.s), maxInputLength);
      JoinSplit(sr.value, ',');
      JoinSplit(sj.value, ',');
    }
  }

  /** A matcher built without a length limit refuses every pair of inputs
      that gets past the type checks, with the `TypeError` of comparing an
      int to `None`, and stores nothing. */
  lemma NoLimitRejectsEverything(c: Category, st: MatcherState, resume: string, job: string)
    requires PassesEmptinessTest(c, Str(resume)) && PassesEmptinessTest(c, Str(job))
    ensures SetInputsStep(c, None, st, Str(resume), Str(job)).0 == st
    ensures SetInputsStep(c, None, st, Str(resume), Str(job)).1.Err?
    ensures SetInputsStep(c, None, st, Str(resume), Str(job)).1.error.TypeError?
  {
  }

  /** Both score lists have one entry per requirement item and lie in [0, 1]. */
  lemma SelectedInUnit(c: Category, sim1: Cosine, sim2: Cosine, jobs: seq<string>, cands: seq<string>)
    ensures var sel := Selected(c, sim1, sim2, jobs, cands);
      |sel.0| == |sel.1| == |jobs| && AllInRange(sel.0, 0.0, 1.0) && AllInRange(sel.1, 0.0, 1.0)
  {
    if c == Skill {
      IndependentScoresInUnit(sim1, sim2, jobs, cands, |jobs|);
    } else {
      GreedyScoresInUnit(PolicyOf(c), sim1, sim2, jobs, cands, |jobs|);
    }
  }

  /** The similarity state right after both lists are stored. */
  lemma SelectionCoherent(c: Category, sim1: Cosine, sim2: Cosine, jobs: seq<string>, cands: seq<string>, prior: seq<real>)
    requires AllInRange(prior, 0.0, 1.0)
    ensures var sel := Selected(c, sim1, sim2, jobs, cands);
      Coherent(SimState(Some(sel.0), Some(sel.1), prior))
  {
    SelectedInUnit(c, sim1, sim2, jobs, cands);
  }

  /** A reduction of scores in [0, 1] lies in [0, 1]. */
  lemma ReduceInUnit(c: Category, scores: seq<real>)
    requires AllInRange(scores, 0.0, 1.0)
    ensures InUnit(Reduce(c, scores))
  {
    if scores != [] {
      MeanBounds(scores, 0.0, 1.0);
      assert 0.0 <= scores[0] <= MaxOf(scores);
    }
  }

  /** The state every `*Similarity` object stays in: the ensemble list in
      [0, 1], and, once set, two equally long score lists in [0, 1]. */
  predicate Coherent(s: SimState)
  {
    AllInRange(s.ensembleScore, 0.0, 1.0)
    && (s.model1Score.Some? && s.model2Score.Some? ==>
          |s.model1Score.value| == |s.model2Score.value|
          && AllInRange(s.model1Score.value, 0.0, 1.0) && AllInRange(s.model2Score.value, 0.0, 1.0))
  }

  /** `hardEnsemble` on a coherent state with both lists set succeeds and
      keeps it coherent. */
  lemma HardStepCoherent(rule: Rule, s: SimState)
    requires Coherent(s) && s.model1Score.Some? && s.model2Score.Some?
    ensures HardStep(rule, s).1.Ok? && Coherent(HardStep(rule, s).0)
  {
    HardStepOnUnitScores(rule, s);
    var next := HardStep(rule, s).0;
    forall j | 0 <= j < |next.ensembleScore| ensures 0.0 <= next.ensembleScore[j] <= 1.0 {
      if j < |s.ensembleScore| {
        assert next.ensembleScore[j] == next.ensembleScore[..|s.ensembleScore|][j];
      }
    }
  }

  /** Concluding from a coherent state reports a score in [0, 1] and leaves
      the state coherent. */
  lemma ConcludeInUnit(c: Category, s: SimState)
    requires Coherent(s)
    ensures Coherent(Conclude(c, s).0)
    ensures Conclude(c, s).1.Ok? ==> InUnit(Conclude(c, s).1.value)
  {
    if s.ensembleScore == [] && s.model1Score.Some? && s.model2Score.Some? {
      HardStepCoherent(RuleOf(c), s);
      ReduceInUnit(c, HardStep(RuleOf(c), s).0.ensembleScore);
    } else {
      ReduceInUnit(c, s.ensembleScore);
    }
  }

  /** Once the embedding models answer, the scoring half of `makeMatch`
      never fails: both lists have one entry per requirement item, so
      `hardEnsemble` never indexes past an end and raises nothing for the
      "Failed to make match: …" wrapper to report. From a coherent ensemble the score and every new ensemble
      value lie in [0, 1]. */
  lemma ScoreStepInUnit(c: Category, prior: seq<real>, sim1: Cosine, sim2: Cosine, jobs: seq<string>, cands: seq<string>)
    requires AllInRange(prior, 0.0, 1.0)
    ensures var (s, r) := ScoreStep(c, prior, sim1, sim2, jobs, cands);
      r.Ok? && InUnit(r.value) && Coherent(s)
  {
    var sel := Selected(c, sim1, sim2, jobs, cands);
    SelectedInUnit(c, sim1, sim2, jobs, cands);
    var s0 := SimState(Some(sel.0), Some(sel.1), prior);
    HardStepCoherent(RuleOf(c), s0);
    var s1 := HardStep(RuleOf(c), s0).0;
    ConcludeInUnit(c, s1);
    if s1.ensembleScore == [] {
      HardStepCoherent(RuleOf(c), s1);
    }
  }

  /** `makeMatch` fails exactly when the models cannot be loaded, the
      inputs are not set or the embedding models raise; otherwise, from a coherent state, it reports a
      score in [0, 1] and leaves the state coherent. */
  lemma MatchFailsExactly(c: Category, name1: string, name2: string, st: MatcherState, sim1: Cosine, sim2: Cosine, loaderError: Option<string>, encodeError: Option<string>)
    requires Coherent(st.sim)
    ensures var (next, r) := MatchStep(c, name1, name2, st, sim1, sim2, loaderError, encodeError);
      (r.Err? <==>
        (!st.modelsLoaded && (c == Certification || LoadOutcome(c, name1, name2, loaderError).Err?))
        || Unset(st.resumeItems) || Unset(st.jobItems) || encodeError.Some?)
      && (r.Ok? ==> InUnit(r.value))
      && Coherent(next.sim)
  {
    if !Unset(st.resumeItems) && !Unset(st.jobItems) && encodeError.None? {
      ScoreStepInUnit(c, st.sim.ensembleScore, sim1, sim2, st.jobItems.value, st.resumeItems.value);
    }
  }

  /** A second `getEnsembleScore` on the state the first one left reports
      the same list, even an empty one (which makes it rewrite the score
      lists once more). */
  lemma EnsembleStepRepeats(rule: Rule, s: SimState)
    requires Coherent(s) && s.model1Score.Some? && s.model2Score.Some?
    requires s.ensembleScore == [] ==> NonZeroPairs(s.model1Score.value, s.model2Score.value, |s.model1Score.value|) == 0
    ensures EnsembleStep(rule, s).1.Ok?
    ensures var next := EnsembleStep(rule, s).0;
      Coherent(next) && next.model1Score.Some? && next.model2Score.Some?
      && EnsembleStep(rule, next).1 == EnsembleStep(rule, s).1
  {
    if s.ensembleScore == [] {
      HardStepOnUnitScores(rule, s);
      HardStepCoherent(rule, s);
      var next := HardStep(rule, s).0;
      assert next.ensembleScore == [];
      HardStepOnUnitScores(rule, next);
    }
  }

  /** After a successful `makeMatch`, `getSimilarityScore` reports the same
      score, in every category: education by reading the ensemble list,
      the others either by reading it or, when it came out empty, by
      running `makeMatch` again, which gives the same empty list. */
  lemma ScoreAfterMatchAgrees(c: Category, name1: string, name2: string, st: MatcherState, sim1: Cosine, sim2: Cosine, loaderError: Option<string>, encodeError: Option<string>)
    requires Coherent(st.sim)
    requires MatchStep(c, name1, name2, st, sim1, sim2, loaderError, encodeError).1.Ok?
    ensures var (next, r) := MatchStep(c, name1, name2, st, sim1, sim2, loaderError, encodeError);
      GetScoreStep(c, name1, name2, next, sim1, sim2, loaderError, encodeError).1 == r
  {
    MatchFailsExactly(c, name1, name2, st, sim1, sim2, loaderError, encodeError);
    var jobs, cands := st.jobItems.value, st.resumeItems.value;
    var prior := st.sim.ensembleScore;
    var sel := Selected(c, sim1, sim2, jobs, cands);
    SelectedInUnit(c, sim1, sim2, jobs, cands);
    var s0 := SimState(Some(sel.0), Some(sel.1), prior);
    HardStepOnUnitScores(RuleOf(c), s0);
    HardStepCoherent(RuleOf(c), s0);
    var s1 := HardStep(RuleOf(c), s0).0;
    EnsembleStepRepeats(RuleOf(c), s1);
    var s2 := EnsembleStep(RuleOf(c), s1).0;
    var (next, r) := MatchStep(c, name1, name2, st, sim1, sim2, loaderError, encodeError);
    assert next.sim == s2;
    if c != Education && s2.ensembleScore == [] {
      // The ensemble came out empty, so nothing was there before either,
      // and the second run starts where the first one did.
      assert s1.ensembleScore == [];
      assert prior == [];
      assert ScoreStep(c, s2.ensembleScore, sim1, sim2, jobs, cands) == ScoreStep(c, prior, sim1, sim2, jobs, cands);
      assert MatchStep(c, name1, name2, next, sim1, sim2, loaderError, encodeError) == (next, r);
    }
  }

  /** Education's `getSimilarityScore` never matches: on a fresh
      similarity object it fails even with models loaded and inputs set. */
  lemma EducationScoreNeedsMakeMatch(name1: string, name2: string, st: MatcherState, sim1: Cosine, sim2: Cosine, loaderError: Option<string>, encodeError: Option<string>)
    requires st.sim == SimState(None, None, [])
    ensures GetScoreStep(Education, name1, name2, st, sim1, sim2, loaderError, encodeError) == (st, Err(ValueError(NotCalculatedMessage)))
  {
  }

  /** The other categories' `getSimilarityScore` on a fresh similarity
      object is `makeMatch`, with its errors wrapped. */
  lemma ScoreRunsMakeMatch(c: Category, name1: string, name2: string, st: MatcherState, sim1: Cosine, sim2: Cosine, loaderError: Option<string>, encodeError: Option<string>)
    requires c != Education && st.sim == SimState(None, None, [])
    ensures var (next, r) := MatchStep(c, name1, name2, st, sim1, sim2, loaderError, encodeError);
      r.Err? ==> GetScoreStep(c, name1, name2, st, sim1, sim2, loaderError, encodeError).1
                 == Err(RuntimeError("Failed to get similarity score: " + Describe(r.error)))
    ensures var (next, r) := MatchStep(c, name1, name2, st, sim1, sim2, loaderError, encodeError);
      r.Ok? ==> GetScoreStep(c, name1, name2, st, sim1, sim2, loaderError, encodeError).1 == r
  {
    var (next, r) := MatchStep(c, name1, name2, st, sim1, sim2, loaderError, encodeError);
    if r.Ok? {
      ScoreAfterMatchAgrees(c, name1, name2, st, sim1, sim2, loaderError, encodeError);
    }
  }

  // ---------------------------------------------------------------------------
  // Skill: every ensemble value lies above 1/2
  // ---------------------------------------------------------------------------

  /** A skill similarity object: coherent, every ensemble value above 1/2,
      and every model-2 score exactly 1. */
  predicate SkillCoherent(s: SimState)
  {
    Coherent(s)
    && (forall j :: 0 <= j < |s.ensembleScore| ==> s.ensembleScore[j] > 0.5)
    && (s.model2Score.Some? ==> forall k :: 0 <= k < |s.model2Score.value| ==> s.model2Score.value[k] == 1.0)
  }

  /** The skill rule leaves a model-2 score of 1 alone, so each appended
      value is the mean of 1 and a score in (0, 1]. */
  lemma SkillHardStep(s: SimState)
    requires SkillCoherent(s) && s.model1Score.Some? && s.model2Score.Some?
    ensures HardStep(SkillRule, s).1.Ok? && SkillCoherent(HardStep(SkillRule, s).0)
  {
    HardStepOnUnitScores(SkillRule, s);
    HardStepCoherent(SkillRule, s);
    var m1, m2 := s.model1Score.value, s.model2Score.value;
    var n := |m1|;
    var a1, a2 := Adjusted1(SkillRule, m1, m2, n), Adjusted2(SkillRule, m1, m2, n);
    var next := HardStep(SkillRule, s).0;
    assert next.model1Score.value == a1 && next.model2Score.value == a2;
    forall k | 0 <= k < n ensures a2[k] == 1.0 {
      assert m2[k] == 1.0;
    }
    var avg := Averages(a1, a2, n);
    assert next.ensembleScore == s.ensembleScore + avg;
    forall j | 0 <= j < |avg| ensures avg[j] > 0.5 {
      var k :| 0 <= k < n && a1[k] != 0.0 && a2[k] != 0.0 && avg[j] == (a1[k] + a2[k]) / 2.0;
      assert 0.0 <= a1[k] && a2[k] == 1.0;
    }
  }

  /** The mean of values in (1/2, 1] lies in (1/2, 1]. */
  lemma SkillReduce(scores: seq<real>)
    requires AllInRange(scores, 0.0, 1.0) && forall j :: 0 <= j < |scores| ==> scores[j] > 0.5
    ensures Reduce(Skill, scores) == 0.0 || 0.5 < Reduce(Skill, scores) <= 1.0
  {
    if scores != [] {
      MeanBetweenMinAndMax(scores);
      MeanBounds(scores, 0.0, 1.0);
    }
  }

  /** A skill score is 0.0 (nothing was averaged) or lies in (1/2, 1]. */
  lemma SkillScoreAboveHalf(name1: string, name2: string, st: MatcherState, sim1: Cosine, sim2: Cosine, loaderError: Option<string>, encodeError: Option<string>)
    requires SkillCoherent(st.sim)
    ensures var (next, r) := MatchStep(Skill, name1, name2, st, sim1, sim2, loaderError, encodeError);
      SkillCoherent(next.sim) && (r.Ok? ==> r.value == 0.0 || 0.5 < r.value <= 1.0)
  {
    if st.modelsLoaded || LoadOutcome(Skill, name1, name2, loaderError).Ok? {
      if !Unset(st.resumeItems) && !Unset(st.jobItems) {
        var jobs, cands := st.jobItems.value, st.resumeItems.value;
        SelectedInUnit(Skill, sim1, sim2, jobs, cands);
        IndependentScoresInUnit(sim1, sim2, jobs, cands, |jobs|);
        var sel := Selected(Skill, sim1, sim2, jobs, cands);
        var s0 := SimState(Some(sel.0), Some(sel.1), st.sim.ensembleScore);
        SkillHardStep(s0);
        var s1 := HardStep(SkillRule, s0).0;
        if s1.ensembleScore == [] {
          SkillHardStep(s1);
          SkillReduce(HardStep(SkillRule, s1).0.ensembleScore);
        } else {
          SkillReduce(s1.ensembleScore);
        }
      }
    }
  }

  // ---------------------------------------------------------------------------
  // Perfect and empty inputs
  // ---------------------------------------------------------------------------

  /** Oracles under which every pair of texts is a perfect match. */
  const Perfect: Cosine := (a: string, b: string) => 1.0

  /** What a pair of perfect scores contributes to the ensemble: the
      education rule damps (1, 1) to (0.7, 0.7); the others keep it. */
  function PerfectValue(c: Category): real
  {
    if c == Education then 0.7 else 1.0
  }

  /** Under perfect oracles each requirement item scores (0, ·) when nothing
      is eligible and (1, 1) otherwise. */
  lemma PerfectSelection(c: Category, jobs: seq<string>, cands: seq<string>)
    ensures var sel := Selected(c, Perfect, Perfect, jobs, cands);
      forall k :: 0 <= k < |jobs| ==> sel.0[k] == 0.0 || (sel.0[k] == 1.0 && sel.1[k] == 1.0)
  {
    var sel := Selected(c, Perfect, Perfect, jobs, cands);
    SelectedInUnit(c, Perfect, Perfect, jobs, cands);
    forall k | 0 <= k < |jobs| ensures sel.0[k] == 0.0 || (sel.0[k] == 1.0 && sel.1[k] == 1.0) {
      if c == Skill {
        IndependentItems(Perfect, Perfect, jobs, cands, k, |jobs|);
        IndependentScanIsMaximum(Perfect, Perfect, Strip(jobs[k]), cands, |cands|);
      } else {
        var p := PolicyOf(c);
        ItemScores(p, Perfect, Perfect, jobs, cands, k);
        ScanSelectsFirstGreatest(p, Perfect, Perfect, Strip(jobs[k]), cands, MatchPrefix(p, Perfect, Perfect, jobs, cands, k).matched, |cands|);
      }
    }
  }

  /** The rewrite of one pair that is (0, ·) or (1, 1): if both results are
      non-zero, they average to the category's perfect value. */
  lemma PerfectPairAdjust(c: Category, a: real, b: real)
    requires a == 0.0 || (a == 1.0 && b == 1.0)
    ensures var p := Adjust(RuleOf(c), a, b);
      p.0 != 0.0 && p.1 != 0.0 ==> (p.0 + p.1) / 2.0 == PerfectValue(c)
    ensures a != 0.0 && b != 0.0 ==> (a + b) / 2.0 == 1.0
  {
  }

  /** `hardEnsemble` on pairs that are (0, ·) or (1, 1) appends only the
      category's perfect value. */
  lemma PerfectHardStep(c: Category, s: SimState)
    requires s.model1Score.Some? && s.model2Score.Some?
    requires |s.model1Score.value| == |s.model2Score.value|
    requires AllInRange(s.model2Score.value, 0.0, 1.0)
    requires forall k :: 0 <= k < |s.model1Score.value| ==>
      s.model1Score.value[k] == 0.0 || (s.model1Score.value[k] == 1.0 && s.model2Score.value[k] == 1.0)
    ensures var next := HardStep(RuleOf(c), s).0;
      HardStep(RuleOf(c), s).1.Ok?
      && next.ensembleScore[..|s.ensembleScore|] == s.ensembleScore
      && forall j :: |s.ensembleScore| <= j < |next.ensembleScore| ==> next.ensembleScore[j] == PerfectValue(c)
  {
    var rule := RuleOf(c);
    var m1, m2 := s.model1Score.value, s.model2Score.value;
    var n := |m1|;
    assert AllInRange(m1, 0.0, 1.0) by {
      forall k | 0 <= k < n ensures 0.0 <= m1[k] <= 1.0 {
      }
    }
    HardStepOnUnitScores(rule, s);
    var a1, a2 := m1, m2;
    if rule != CertificationRule {
      a1, a2 := Adjusted1(rule, m1, m2, n), Adjusted2(rule, m1, m2, n);
    }
    assert HardStep(rule, s).0.ensembleScore == s.ensembleScore + Averages(a1, a2, n);
    forall k | 0 <= k < n && a1[k] != 0.0 && a2[k] != 0.0 ensures (a1[k] + a2[k]) / 2.0 == PerfectValue(c) {
      PerfectPairAdjust(c, m1[k], m2[k]);
      if rule != CertificationRule {
        assert a1[k] == Adjust(rule, m1[k], m2[k]).0 && a2[k] == Adjust(rule, m1[k], m2[k]).1;
      }
    }
    AveragesAllEqual(a1, a2, n, PerfectValue(c));
  }

  /** Pairs that all average to `v` give a list of `v`s. */
  lemma AveragesAllEqual(a1: seq<real>, a2: seq<real>, n: nat, v: real)
    requires n <= |a1| && n <= |a2|
    requires forall k :: 0 <= k < n && a1[k] != 0.0 && a2[k] != 0.0 ==> (a1[k] + a2[k]) / 2.0 == v
    ensures forall j :: 0 <= j < |Averages(a1, a2, n)| ==> Averages(a1, a2, n)[j] == v
  {
    var avg := Averages(a1, a2, n);
    forall j | 0 <= j < |avg| ensures avg[j] == v {
      assert exists k :: 0 <= k < n && a1[k] != 0.0 && a2[k] != 0.0 && avg[j] == (a1[k] + a2[k]) / 2.0;
      var k :| 0 <= k < n && a1[k] != 0.0 && a2[k] != 0.0 && avg[j] == (a1[k] + a2[k]) / 2.0;
    }
  }

  lemma {:induction false} NonZeroPairsPositive(m1: seq<real>, m2: seq<real>, n: nat, k: nat)
    requires k < n <= |m1| && n <= |m2| && m1[k] != 0.0 && m2[k] != 0.0
    ensures NonZeroPairs(m1, m2, n) >= 1
  {
    if k < n - 1 {
      NonZeroPairsPositive(m1, m2, n - 1, k);
    }
  }

  lemma {:induction false} NoPairsWithoutModel1(m1: seq<real>, m2: seq<real>, n: nat)
    requires n <= |m1| && n <= |m2|
    requires forall k :: 0 <= k < n ==> m1[k] == 0.0
    ensures NonZeroPairs(m1, m2, n) == 0
  {
    if n > 0 {
      NoPairsWithoutModel1(m1, m2, n - 1);
    }
  }

  /** A list with every value `v` reduces to `v` (for `v` in [0, 1]). */
  lemma ReduceConstant(c: Category, scores: seq<real>, v: real)
    requires scores != [] && InUnit(v) && AllInRange(scores, v, v)
    ensures Reduce(c, scores) == v
  {
    MeanBounds(scores, v, v);
  }

  /** An empty ensemble list that `hardEnsemble` leaves empty reduces to 0.0. */
  lemma ConcludeEmpty(c: Category, s: SimState)
    requires s.ensembleScore == [] && HardStep(RuleOf(c), s).1.Ok? && HardStep(RuleOf(c), s).0.ensembleScore == []
    ensures Conclude(c, s).1 == Ok(0.0)
  {
  }

  /** With no pair of non-zero scores `hardEnsemble` appends nothing, and the
      rewritten lists still have none. */
  lemma HardStepWithoutPairs(rule: Rule, s: SimState)
    requires s.model1Score.Some? && s.model2Score.Some? && Coherent(s) && s.ensembleScore == []
    requires NonZeroPairs(s.model1Score.value, s.model2Score.value, |s.model1Score.value|) == 0
    ensures var next := HardStep(rule, s).0;
      HardStep(rule, s).1.Ok? && next.ensembleScore == []
      && next.model1Score.Some? && next.model2Score.Some? && Coherent(next)
      && NonZeroPairs(next.model1Score.value, next.model2Score.value, |next.model1Score.value|) == 0
  {
    HardStepOnUnitScores(rule, s);
  }

  /** When no pair is averaged, the score is 0.0: the ensemble stays empty
      through both `hardEnsemble` runs. */
  lemma NoPairsConcludeZero(c: Category, s0: SimState)
    requires s0.model1Score.Some? && s0.model2Score.Some? && Coherent(s0) && s0.ensembleScore == []
    requires NonZeroPairs(s0.model1Score.value, s0.model2Score.value, |s0.model1Score.value|) == 0
    ensures HardStep(RuleOf(c), s0).1.Ok? && Conclude(c, HardStep(RuleOf(c), s0).0).1 == Ok(0.0)
  {
    HardStepWithoutPairs(RuleOf(c), s0);
    var s1 := HardStep(RuleOf(c), s0).0;
    HardStepWithoutPairs(RuleOf(c), s1);
    ConcludeEmpty(c, s1);
  }

  /** Perfect oracles: the score is 0.0 or the category's perfect value
      (0.7 for education, 1.0 for the others), and the perfect value as soon
      as one pair is averaged. */
  lemma PerfectScores(c: Category, jobs: seq<string>, cands: seq<string>)
    ensures var r := ScoreStep(c, [], Perfect, Perfect, jobs, cands).1;
      r == Ok(0.0) || r == Ok(PerfectValue(c))
    ensures var sel := Selected(c, Perfect, Perfect, jobs, cands);
      NonZeroPairs(sel.0, sel.1, |jobs|) > 0 ==> ScoreStep(c, [], Perfect, Perfect, jobs, cands).1 == Ok(PerfectValue(c))
  {
    var sel := Selected(c, Perfect, Perfect, jobs, cands);
    SelectionCoherent(c, Perfect, Perfect, jobs, cands, []);
    PerfectSelection(c, jobs, cands);
    PerfectConclude(c, SimState(Some(sel.0), Some(sel.1), []));
  }

  /** The ensemble half of `PerfectScores`, on the stored lists. */
  lemma PerfectConclude(c: Category, s0: SimState)
    requires s0.model1Score.Some? && s0.model2Score.Some? && Coherent(s0) && s0.ensembleScore == []
    requires forall k :: 0 <= k < |s0.model1Score.value| ==>
      s0.model1Score.value[k] == 0.0 || (s0.model1Score.value[k] == 1.0 && s0.model2Score.value[k] == 1.0)
    ensures HardStep(RuleOf(c), s0).1.Ok?
    ensures var r := Conclude(c, HardStep(RuleOf(c), s0).0).1;
      (r == Ok(0.0) || r == Ok(PerfectValue(c)))
      && (NonZeroPairs(s0.model1Score.value, s0.model2Score.value, |s0.model1Score.value|) > 0 ==> r == Ok(PerfectValue(c)))
  {
    PerfectHardStep(c, s0);
    HardStepOnUnitScores(RuleOf(c), s0);
    var s1 := HardStep(RuleOf(c), s0).0;
    if s1.ensembleScore == [] {
      NoPairsConcludeZero(c, s0);
    } else {
      ReduceConstant(c, s1.ensembleScore, PerfectValue(c));
    }
  }

  /** Under perfect oracles, a non-empty first requirement item that also
      appears among the resume items scores (1, 1). */
  lemma FirstItemMatchesItself(c: Category, jobs: seq<string>, cands: seq<string>)
    requires |jobs| > 0 && Strip(jobs[0]) != "" && jobs[0] in cands
    ensures Selected(c, Perfect, Perfect, jobs, cands).0[0] == 1.0
    ensures Selected(c, Perfect, Perfect, jobs, cands).1[0] == 1.0
  {
    var sel := Selected(c, Perfect, Perfect, jobs, cands);
    var w :| 0 <= w < |cands| && cands[w] == jobs[0];
    assert jobs[0] != "";
    PerfectSelection(c, jobs, cands);
    if c == Skill {
      IndependentItems(Perfect, Perfect, jobs, cands, 0, |jobs|);
      IndependentScanIsMaximum(Perfect, Perfect, Strip(jobs[0]), cands, |cands|);
      assert Clamp0(Perfect(Strip(jobs[0]), Strip(cands[w]))) == 1.0;
    } else {
      var p := PolicyOf(c);
      ItemScores(p, Perfect, Perfect, jobs, cands, 0);
      assert MatchPrefix(p, Perfect, Perfect, jobs, cands, 0).matched == {};
      assert Eligible(p, Strip(jobs[0]), cands[w], {});
      ScanSelectsFirstGreatest(p, Perfect, Perfect, Strip(jobs[0]), cands, {}, |cands|);
    }
  }

  /** Identical lists under perfect oracles score the perfect value, as
      soon as the first item is not blank. */
  lemma IdenticalListsScorePerfect(c: Category, items: seq<string>)
    requires |items| > 0 && Strip(items[0]) != ""
    ensures ScoreStep(c, [], Perfect, Perfect, items, items).1 == Ok(PerfectValue(c))
  {
    var sel := Selected(c, Perfect, Perfect, items, items);
    FirstItemMatchesItself(c, items, items);
    NonZeroPairsPositive(sel.0, sel.1, |items|, 0);
    PerfectScores(c, items, items);
  }

  /** Requirement items that are all blank score 0.0. */
  lemma BlankRequirementsScoreZero(c: Category, jobs: seq<string>, cands: seq<string>, sim1: Cosine, sim2: Cosine)
    requires forall k :: 0 <= k < |jobs| ==> Strip(jobs[k]) == ""
    ensures ScoreStep(c, [], sim1, sim2, jobs, cands).1 == Ok(0.0)
  {
    var sel := Selected(c, sim1, sim2, jobs, cands);
    forall k | 0 <= k < |jobs| ensures sel.0[k] == 0.0 {
      if c == Skill {
        IndependentItems(sim1, sim2, jobs, cands, k, |jobs|);
        EmptyItemScoresZero(sim1, sim2, Strip(jobs[k]), cands);
      } else {
        var p := PolicyOf(c);
        ItemScores(p, sim1, sim2, jobs, cands, k);
        ScanSelectsFirstGreatest(p, sim1, sim2, Strip(jobs[k]), cands, MatchPrefix(p, sim1, sim2, jobs, cands, k).matched, |cands|);
      }
    }
    SelectedInUnit(c, sim1, sim2, jobs, cands);
    NoPairsWithoutModel1(sel.0, sel.1, |jobs|);
    NoPairsConcludeZero(c, SimState(Some(sel.0), Some(sel.1), []));
  }

  /** A whitespace-only requirement text passes `setInputs` (it is a
      non-empty string), is stored as one blank item, and then scores 0.0;
      the blank item is still encoded, so failing embedding models fail the
      match. */
  lemma BlankInputsScoreZero(c: Category, maxInputLength: nat, st: MatcherState, resume: string, job: string,
                             name1: string, name2: string, sim1: Cosine, sim2: Cosine, loaderError: Option<string>, encodeError: Option<string>)
    requires resume != "" && job != "" && |resume| <= maxInputLength && |job| <= maxInputLength
    requires forall k :: 0 <= k < |job| ==> IsSpace(job[k])
    requires st.modelsLoaded && st.sim == SimState(None, None, [])
    ensures var (st1, r) := SetInputsStep(c, Some(maxInputLength), st, Str(resume), Str(job));
      r.Ok? && st1.jobItems == Some([""])
      && MatchStep(c, name1, name2, st1, sim1, sim2, loaderError, encodeError).1
         == if encodeError.Some? then Err(RuntimeError(MatchFailedPrefix + encodeError.value)) else Ok(0.0)
  {
    EscapePlainIsIdentity(job);
    BlankStripsToEmpty(job);
    assert SanitizeInput(TextInput(job), Some(maxInputLength)) == Ok("");
    assert Split("", ',') == [""];
    var (st1, r) := SetInputsStep(c, Some(maxInputLength), st, Str(resume), Str(job));
    assert st1.jobItems == Some([""]);
    BlankItemMatch(c, name1, name2, st1, sim1, sim2, loaderError, encodeError);
  }

  /** A matcher with its models, a candidate list and one blank requirement
      item scores 0.0, unless the embedding models raise. */
  lemma BlankItemMatch(c: Category, name1: string, name2: string, st: MatcherState, sim1: Cosine, sim2: Cosine,
                       loaderError: Option<string>, encodeError: Option<string>)
    requires st.modelsLoaded && st.jobItems == Some([""]) && !Unset(st.resumeItems) && st.sim.ensembleScore == []
    ensures MatchStep(c, name1, name2, st, sim1, sim2, loaderError, encodeError).1
            == if encodeError.Some? then Err(RuntimeError(MatchFailedPrefix + encodeError.value)) else Ok(0.0)
  {
    if encodeError.None? {
      assert Strip("") == "";
      BlankRequirementsScoreZero(c, [""], st.resumeItems.value, sim1, sim2);
    }
  }

  /** The `[0.7, 0.8]` ensemble of the category tests: 0.75 for every
      category that averages, 0.8 for education, which takes the maximum. */
  lemma TestEnsembleReduces(c: Category)
    ensures Reduce(c, [0.7, 0.8]) == (if c == Education then 0.8 else 0.75)
  {
    MeanOfTestEnsemble();
    assert MaxOf([0.7, 0.8]) == 0.8 by {
      assert [0.7, 0.8][..1] == [0.7];
    }
  }

  // ---------------------------------------------------------------------------
  // The class
  // ---------------------------------------------------------------------------

  class ListMatcher {
    const category: Category
    /** The configured model names; "" stands for `None`. */
    const modelName1: string
    const modelName2: string
    /** `None` when the object was built without a limit. */
    const maxInputLength: Option<nat>
    const similarity: ListSimilarity
    var modelsLoaded: bool
    var resumeItems: Option<seq<string>>
    var jobItems: Option<seq<string>>

    /** The similarity object applies this category's rule. */
    predicate Valid()
    {
      similarity.rule == RuleOf(category)
    }

    function State(): MatcherState
      reads this, similarity
    {
      MatcherState(modelsLoaded, resumeItems, jobItems, similarity.State())
    }

    /** Certification starts with the process-wide models bound; the others
        load theirs on the first `makeMatch`. */
    constructor(category: Category, modelName1: string, modelName2: string, maxInputLength: Option<nat>)
      ensures Valid()
      ensures this.category == category && this.modelName1 == modelName1 && this.modelName2 == modelName2
      ensures this.maxInputLength == maxInputLength
      ensures State() == MatcherState(category == Certification, None, None, SimState(None, None, []))
      ensures fresh(similarity)
    {
      this.category := category;
      this.modelName1 := modelName1;
      this.modelName2 := modelName2;
      this.maxInputLength := maxInputLength;
      similarity := new ListSimilarity(RuleOf(category));
      modelsLoaded := category == Certification;
      resumeItems := None;
      jobItems := None;
    }

    method LoadModels(loaderError: Option<string>) returns (r: Result<()>)
      requires category != Certification
      modifies this
      ensures r == LoadOutcome(category, modelName1, modelName2, loaderError)
      ensures modelsLoaded == (old(modelsLoaded) || r.Ok?)
      ensures resumeItems == old(resumeItems) && jobItems == old(jobItems)
    {
      if modelName1 == "" || modelName2 == "" {
        return Err(ValueError(ModelNamesMessage));
      }
      if category != Designation && loaderError.Some? {
        return Err(RuntimeError("Failed to load models '" + modelName1 + "' and '" + modelName2 + "': " + loaderError.value));
      }
      modelsLoaded := true;
      return Ok(());
    }

    method SetInputs(resume: PyText, job: PyText) returns (r: Result<()>)
      modifies this
      ensures (State(), r) == SetInputsStep(category, maxInputLength, old(State()), resume, job)
    {
      if !PassesEmptinessTest(category, resume) || !PassesEmptinessTest(category, job) {
        return Err(ValueError(EmptyMessage(category)));
      }
      if !resume.Str? {
        return Err(ValueError("Resume " + Noun(category) + " must be a string."));
      }
      if !job.Str? {
        return Err(ValueError("Job " + Noun(category) + " must be a string."));
      }
      var rs := SanitizeInput(TextInput(resume.s), maxInputLength);
      if rs.Err? {
        return Err(rs.error);
      }
      resumeItems := Some(Split(rs.value, ','));
      var js := SanitizeInput(TextInput(job.s), maxInputLength);
      if js.Err? {
        return Err(js.error);
      }
      jobItems := Some(Split(js.value, ','));
      return Ok(());
    }

    method MakeMatch(sim1: Cosine, sim2: Cosine, loaderError: Option<string>, encodeError: Option<string>) returns (r: Result<real>)
      requires Valid()
      modifies this, similarity
      ensures (State(), r) == MatchStep(category, modelName1, modelName2, old(State()), sim1, sim2, loaderError, encodeError)
    {
      if !modelsLoaded {
        if category == Certification {
          return Err(RuntimeError(SharedModelsMessage));
        }
        var l := LoadModels(loaderError);
        if l.Err? {
          return Err(RuntimeError("Failed to load models: " + Describe(l.error)));
        }
      }
      if Unset(resumeItems) || Unset(jobItems) {
        return Err(ValueError(InputsNotSetMessage));
      }
      if encodeError.Some? {
        return Err(RuntimeError(MatchFailedPrefix + encodeError.value));
      }
      var jobs, cands := jobItems.value, resumeItems.value;
      var model1Scores, model2Scores;
      if category == Skill {
        model1Scores, model2Scores := IndependentMatch(sim1, sim2, jobs, cands);
      } else {
        model1Scores, model2Scores := GreedyMatch(PolicyOf(category), sim1, sim2, jobs, cands);
      }
      similarity.SetModel1Score(model1Scores);
      similarity.SetModel2Score(model2Scores);
      var h := similarity.HardEnsemble();
      if h.Err? {
        return Err(RuntimeError(MatchFailedPrefix + Describe(h.error)));
      }
      r := Finish();
    }

    /** The common tail of `makeMatch` and `getSimilarityScore`. */
    method Finish() returns (r: Result<real>)
      requires Valid()
      modifies similarity
      ensures (similarity.State(), r) == Conclude(category, old(similarity.State()))
    {
      var scores := similarity.GetEnsembleScore();
      if scores.Err? {
        return Err(scores.error);
      }
      return Ok(Reduce(category, scores.value));
    }

    method GetSimilarityScore(sim1: Cosine, sim2: Cosine, loaderError: Option<string>, encodeError: Option<string>) returns (r: Result<real>)
      requires Valid()
      modifies this, similarity
      ensures (State(), r) == GetScoreStep(category, modelName1, modelName2, old(State()), sim1, sim2, loaderError, encodeError)
    {
      if category != Education && similarity.ensembleScore == [] {
        var m := MakeMatch(sim1, sim2, loaderError, encodeError);
        if m.Err? {
          return Err(RuntimeError("Failed to get similarity score: " + Describe(m.error)));
        }
      }
      r := Finish();
    }

    /** Clears the similarity object and the inputs and drops the models;
        certification keeps its process-wide models. */
    method Reset()
      modifies this, similarity
      ensures State() == MatcherState(if category == Certification then old(modelsLoaded) else false, None, None, SimState(None, None, []))
    {
      similarity.Reset();
      if category != Certification {
        modelsLoaded := false;
      }
      resumeItems := None;
      jobItems := None;
    }
  }
}
