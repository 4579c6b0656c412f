/** The matching engine: one matcher per report key, a seven-key report of
    scores, and `getMatch`, which runs every matcher on the two documents'
    entries for its key and records 0.0 for any matcher that fails. The
    matchers share no state, so the thread pool that runs them is modelled
    as a loop over the keys. */
module Engine {

  import opened Wrappers
  import opened Scoring
  import opened Selection
  import opened Ensemble
  import opened ListMatching
  import Experience
  import EducationMatchmaker
  import SkillMatchmaker
  import ToolsMatchmaker
  import CertificationMatchmaker
  import DesignationMatchmaker

  // ---------------------------------------------------------------------------
  // Keys, documents and the outside world
  // ---------------------------------------------------------------------------

  const EducationKey: string := "EDUCATION"
  const ExperienceKey: string := "EXPERIENCE"
  const TechnicalSkillKey: string := "TECHNICAL_SKILL"
  const SoftSkillKey: string := "SOFT_SKILL"
  const ToolKey: string := "TOOL"
  const CertificationKey: string := "CERTIFICATION"
  const DesignationKey: string := "DESIGNATION"

  /** The report's keys, in the order the report is built. */
  const Keys: seq<string> := [EducationKey, ExperienceKey, TechnicalSkillKey, SoftSkillKey, ToolKey, CertificationKey, DesignationKey]

  /** The keys scored by a list matcher. */
  predicate IsListKey(key: string)
  {
    key in Keys && key != ExperienceKey
  }

  /** A new engine's report: every key at 0.0. */
  const InitialReport: map<string, real> := map k | k in Keys :: 0.0

  /** A parsed resume or job description: category key to entry. */
  type Document = map<string, PyText>

  /** `document.get(key, [])`. */
  function Entry(doc: Document, key: string): PyText
  {
    if key in doc then doc[key] else EmptyList
  }

  /** Python's truth value of a document attribute: `None` and `{}` are
      falsy. */
  predicate Present(doc: Option<Document>)
  {
    doc.Some? && doc.value != map[]
  }

  /** The models behind each key's matcher, as oracles: the two cosine
      similarities and whether loading the models fails. */
  datatype Oracles = Oracles(sim1: string -> Cosine, sim2: string -> Cosine, loaderError: string -> Option<string>,
                           encodeError: string -> Option<string>)

  /** The names and the length limit a matcher was built with. */
  datatype MatcherSetup = MatcherSetup(modelName1: string, modelName2: string, maxInputLength: Option<nat>)

  /** The setups of the engine's seven matchers. */
  datatype Settings = MatcherSettings(
    education: MatcherSetup, experience: MatcherSetup, technicalSkill: MatcherSetup, softSkill: MatcherSetup,
    tool: MatcherSetup, certification: MatcherSetup, designation: MatcherSetup)

  function SetupOf(settings: Settings, key: string): MatcherSetup
    requires key in Keys
  {
    if key == EducationKey then settings.education
    else if key == ExperienceKey then settings.experience
    else if key == TechnicalSkillKey then settings.technicalSkill
    else if key == SoftSkillKey then settings.softSkill
    else if key == ToolKey then settings.tool
    else if key == CertificationKey then settings.certification
    else settings.designation
  }

  function CategoryOf(key: string): Category
    requires IsListKey(key)
  {
    if key == EducationKey then Education
    else if key == TechnicalSkillKey || key == SoftSkillKey then Skill
    else if key == ToolKey then Tool
    else if key == CertificationKey then Certification
    else Designation
  }

  // ---------------------------------------------------------------------------
  // The engine's state and its transitions, as values
  // ---------------------------------------------------------------------------

  /** The engine's fields and the states of its seven matchers. */
  datatype EngineState = EngineState(
    resumeJson: Option<Document>, jdJson: Option<Document>, report: map<string, real>,
    education: MatcherState, experience: Experience.ExperienceState, technicalSkill: MatcherState,
    softSkill: MatcherState, tool: MatcherState, certification: MatcherState, designation: MatcherState)

  function ListStateOf(es: EngineState, key: string): MatcherState
    requires IsListKey(key)
  {
    if key == EducationKey then es.education
    else if key == TechnicalSkillKey then es.technicalSkill
    else if key == SoftSkillKey then es.softSkill
    else if key == ToolKey then es.tool
    else if key == CertificationKey then es.certification
    else es.designation
  }

  function WithListState(es: EngineState, key: string, st: MatcherState): (next: EngineState)
    requires IsListKey(key)
    ensures ListStateOf(next, key) == st
    ensures forall k | IsListKey(k) && k != key :: ListStateOf(next, k) == ListStateOf(es, k)
    ensures next.experience == es.experience && next.report == es.report
    ensures next.resumeJson == es.resumeJson && next.jdJson == es.jdJson
  {
    if key == EducationKey then es.(education := st)
    else if key == TechnicalSkillKey then es.(technicalSkill := st)
    else if key == SoftSkillKey then es.(softSkill := st)
    else if key == ToolKey then es.(tool := st)
    else if key == CertificationKey then es.(certification := st)
    else es.(designation := st)
  }

  /** What the engine records for a matcher's outcome. */
  function Degrade(r: Result<real>): real
  {
    if r.Ok? then r.value else 0.0
  }

  /** `setInputs` then `makeMatch` on a list matcher; any failure scores 0.0. */
  function RunListStep(c: Category, setup: MatcherSetup, st: MatcherState, resume: PyText, job: PyText,
                       sim1: Cosine, sim2: Cosine, loaderError: Option<string>, encodeError: Option<string>): (MatcherState, real)
  {
    var (st1, s) := SetInputsStep(c, setup.maxInputLength, st, resume, job);
    if s.Err? then (st1, 0.0)
    else
      var (st2, m) := MatchStep(c, setup.modelName1, setup.modelName2, st1, sim1, sim2, loaderError, encodeError);
      (st2, Degrade(m))
  }

  /** The same for the experience matcher. */
  function RunExperienceStep(setup: MatcherSetup, st: Experience.ExperienceState, resume: PyText, job: PyText,
                             sim1: Cosine, sim2: Cosine, loaderError: Option<string>, encodeError: Option<string>): (Experience.ExperienceState, real)
  {
    var (st1, s) := Experience.SetInputsStep(st, resume, job);
    if s.Err? then (st1, 0.0)
    else
      var (st2, m) := Experience.MatchStep(setup.modelName1, setup.modelName2, setup.maxInputLength, st1, sim1, sim2, loaderError, encodeError);
      (st2, Degrade(m))
  }

  /** `_run_matcher(key)`: the key's matcher on the two documents' entries.
      Reading an entry of a document that is `None` raises, which also
      scores 0.0. */
  function RunStep(key: string, es: EngineState, settings: Settings, oracles: Oracles): (EngineState, real)
    requires key in Keys
  {
    if es.resumeJson.None? || es.jdJson.None? then (es, 0.0)
    else
      var resume := Entry(es.resumeJson.value, key);
      var job := Entry(es.jdJson.value, key);
      var setup := SetupOf(settings, key);
      if key == ExperienceKey then
        var (x, s) := RunExperienceStep(setup, es.experience, resume, job, oracles.sim1(key), oracles.sim2(key), oracles.loaderError(key), oracles.encodeError(key));
        (es.(experience := x), s)
      else
        var (m, s) := RunListStep(CategoryOf(key), setup, ListStateOf(es, key), resume, job, oracles.sim1(key), oracles.sim2(key), oracles.loaderError(key), oracles.encodeError(key));
        (WithListState(es, key, m), s)
  }

  /** The loop of `getMatch` from the `i`-th key on: each key's score is
      written to that key. */
  function RunFrom(es: EngineState, settings: Settings, oracles: Oracles, i: nat): EngineState
    requires i <= |Keys|
    decreases |Keys| - i
  {
    if i == |Keys| then es
    else RunFrom(AfterKey(Keys[i], es, settings, oracles), settings, oracles, i + 1)
  }

  /** One round of the `getMatch` loop: the key's matcher runs and its score
      is written to that key. */
  function AfterKey(key: string, es: EngineState, settings: Settings, oracles: Oracles): EngineState
    requires key in Keys
  {
    var (next, s) := RunStep(key, es, settings, oracles);
    next.(report := next.report[key := s])
  }

  /** `getMatch()`: nothing happens unless both documents are present. */
  function GetMatchStep(es: EngineState, settings: Settings, oracles: Oracles): (EngineState, map<string, real>)
  {
    if !Present(es.resumeJson) || !Present(es.jdJson) then (es, es.report)
    else
      var next := RunFrom(es, settings, oracles, 0);
      (next, next.report)
  }

  // ---------------------------------------------------------------------------
  // Properties
  // ---------------------------------------------------------------------------

  /** Running one key's matcher touches that matcher's state and nothing
      else. */
  lemma RunStepFrame(key: string, es: EngineState, settings: Settings, oracles: Oracles)
    requires key in Keys
    ensures var next := RunStep(key, es, settings, oracles).0;
      next.resumeJson == es.resumeJson && next.jdJson == es.jdJson && next.report == es.report
      && (key != ExperienceKey ==> next.experience == es.experience)
      && (forall k | IsListKey(k) && k != key :: ListStateOf(next, k) == ListStateOf(es, k))
  {
  }

  /** A key missing from either document is passed `[]`, which every
      matcher's `setInputs` refuses: the key scores 0.0 and nothing
      changes. */
  lemma MissingEntryScoresZero(key: string, es: EngineState, settings: Settings, oracles: Oracles)
    requires key in Keys && es.resumeJson.Some? && es.jdJson.Some?
    requires key !in es.resumeJson.value || key !in es.jdJson.value
    ensures RunStep(key, es, settings, oracles) == (es, 0.0)
  {
    if key != ExperienceKey {
      var c := CategoryOf(key);
      var resume := Entry(es.resumeJson.value, key);
      var job := Entry(es.jdJson.value, key);
      assert resume == EmptyList || job == EmptyList;
      assert SetInputsStep(c, SetupOf(settings, key).maxInputLength, ListStateOf(es, key), resume, job).1.Err?;
      assert WithListState(es, key, ListStateOf(es, key)) == es;
    }
  }

  /** A matcher without a length limit cannot take inputs: `sanitizeInput`
      fails on the limit, so its key always scores 0.0. */
  lemma NoLimitScoresZero(key: string, es: EngineState, settings: Settings, oracles: Oracles)
    requires IsListKey(key) && SetupOf(settings, key).maxInputLength.None?
    ensures RunStep(key, es, settings, oracles).1 == 0.0
  {
    if es.resumeJson.Some? && es.jdJson.Some? {
      var resume := Entry(es.resumeJson.value, key);
      var job := Entry(es.jdJson.value, key);
      var r := SetInputsStep(CategoryOf(key), None, ListStateOf(es, key), resume, job).1;
      assert r.Err? by {
        if resume.Str? && job.Str? && PassesEmptinessTest(CategoryOf(key), resume) && PassesEmptinessTest(CategoryOf(key), job) {
          assert InputItems(resume.s, None).Err?;
        }
      }
    }
  }

  /** A skill matcher without model names can never load its models: its
      key always scores 0.0 and the models stay unloaded. */
  lemma NamelessSkillScoresZero(key: string, es: EngineState, settings: Settings, oracles: Oracles)
    requires key == TechnicalSkillKey || key == SoftSkillKey
    requires SetupOf(settings, key).modelName1 == "" && SetupOf(settings, key).modelName2 == ""
    requires !ListStateOf(es, key).modelsLoaded
    ensures var (next, s) := RunStep(key, es, settings, oracles);
      s == 0.0 && !ListStateOf(next, key).modelsLoaded
  {
    if es.resumeJson.Some? && es.jdJson.Some? {
      var resume := Entry(es.resumeJson.value, key);
      var job := Entry(es.jdJson.value, key);
      var setup := SetupOf(settings, key);
      var (st1, r) := SetInputsStep(Skill, setup.maxInputLength, ListStateOf(es, key), resume, job);
      if r.Ok? {
        LoadFailureStopsMatch(Skill, "", "", st1, oracles.sim1(key), oracles.sim2(key), oracles.loaderError(key), oracles.encodeError(key));
      }
    }
  }

  /** Every matcher state the engine holds is one its proofs start from:
      score lists of equal length in the unit interval, and a consistent
      experience matcher. */
  predicate EngineCoherent(es: EngineState)
  {
    Coherent(es.education.sim) && Coherent(es.technicalSkill.sim) && Coherent(es.softSkill.sim)
    && Coherent(es.tool.sim) && Coherent(es.certification.sim) && Coherent(es.designation.sim)
    && Experience.Consistent(es.experience)
  }

  /** A list matcher's run scores in the unit interval and keeps its score
      lists coherent. */
  lemma RunListStepInUnit(c: Category, setup: MatcherSetup, st: MatcherState, resume: PyText, job: PyText,
                          sim1: Cosine, sim2: Cosine, loaderError: Option<string>, encodeError: Option<string>)
    requires Coherent(st.sim)
    ensures var (next, s) := RunListStep(c, setup, st, resume, job, sim1, sim2, loaderError, encodeError);
      InUnit(s) && Coherent(next.sim)
  {
    var (st1, r) := SetInputsStep(c, setup.maxInputLength, st, resume, job);
    assert st1.sim == st.sim;
    if r.Ok? {
      MatchFailsExactly(c, setup.modelName1, setup.modelName2, st1, sim1, sim2, loaderError, encodeError);
    }
  }

  /** The experience matcher's run scores in the unit interval and stays
      consistent. */
  lemma RunExperienceStepInUnit(setup: MatcherSetup, st: Experience.ExperienceState, resume: PyText, job: PyText,
                                sim1: Cosine, sim2: Cosine, loaderError: Option<string>, encodeError: Option<string>)
    requires Experience.Consistent(st)
    ensures var (next, s) := RunExperienceStep(setup, st, resume, job, sim1, sim2, loaderError, encodeError);
      InUnit(s) && Experience.Consistent(next)
  {
    var (st1, r) := Experience.SetInputsStep(st, resume, job);
    if r.Ok? {
      Experience.MatchOutcome(setup.modelName1, setup.modelName2, setup.maxInputLength, st1, sim1, sim2, loaderError, encodeError);
    }
  }

  /** One key's run scores in the unit interval and keeps the engine
      coherent. */
  lemma RunStepInUnit(key: string, es: EngineState, settings: Settings, oracles: Oracles)
    requires key in Keys && EngineCoherent(es)
    ensures var (next, s) := RunStep(key, es, settings, oracles);
      InUnit(s) && EngineCoherent(next)
  {
    if es.resumeJson.Some? && es.jdJson.Some? {
      var resume := Entry(es.resumeJson.value, key);
      var job := Entry(es.jdJson.value, key);
      var setup := SetupOf(settings, key);
      if key == ExperienceKey {
        RunExperienceStepInUnit(setup, es.experience, resume, job, oracles.sim1(key), oracles.sim2(key), oracles.loaderError(key), oracles.encodeError(key));
      } else {
        RunListStepInUnit(CategoryOf(key), setup, ListStateOf(es, key), resume, job, oracles.sim1(key), oracles.sim2(key), oracles.loaderError(key), oracles.encodeError(key));
      }
    }
  }

  /** A report over exactly the seven keys, every value a score. */
  predicate WellFormedReport(report: map<string, real>)
  {
    (forall k | k in report :: k in Keys) && (forall k | k in Keys :: k in report)
    && (forall k | k in report :: InUnit(report[k]))
  }

  lemma {:induction false} RunFromWellFormed(es: EngineState, settings: Settings, oracles: Oracles, i: nat)
    requires i <= |Keys| && EngineCoherent(es) && WellFormedReport(es.report)
    ensures var next := RunFrom(es, settings, oracles, i);
      EngineCoherent(next) && WellFormedReport(next.report)
      && next.resumeJson == es.resumeJson && next.jdJson == es.jdJson
    decreases |Keys| - i
  {
    if i < |Keys| {
      AfterKeyWellFormed(Keys[i], es, settings, oracles);
      RunFromWellFormed(AfterKey(Keys[i], es, settings, oracles), settings, oracles, i + 1);
    }
  }

  /** One round of the loop keeps the engine coherent and the report well
      formed, and leaves both documents alone. */
  lemma AfterKeyWellFormed(key: string, es: EngineState, settings: Settings, oracles: Oracles)
    requires key in Keys && EngineCoherent(es) && WellFormedReport(es.report)
    ensures var next := AfterKey(key, es, settings, oracles);
      EngineCoherent(next) && WellFormedReport(next.report)
      && next.resumeJson == es.resumeJson && next.jdJson == es.jdJson
  {
    RunStepInUnit(key, es, settings, oracles);
    RunStepFrame(key, es, settings, oracles);
    var written := AfterKey(key, es, settings, oracles);
    assert WellFormedReport(written.report);
  }

  /** `getMatch` keeps the report over exactly the seven keys with every
      value in the unit interval, and leaves everything as it was when
      either document is missing or empty. */
  lemma GetMatchOutcome(es: EngineState, settings: Settings, oracles: Oracles)
    requires EngineCoherent(es) && WellFormedReport(es.report)
    ensures var (next, report) := GetMatchStep(es, settings, oracles);
      report == next.report && WellFormedReport(report) && EngineCoherent(next)
      && (!Present(es.resumeJson) || !Present(es.jdJson) ==> next == es)
  {
    if Present(es.resumeJson) && Present(es.jdJson) {
      RunFromWellFormed(es, settings, oracles, 0);
    }
  }

  /** The setups a default-built engine gives its matchers: the tool,
      certification and designation matchers have no length limit, and the
      technical and soft skill matchers have no model names. */
  predicate DefaultSetups(settings: Settings)
  {
    settings.tool.maxInputLength.None? && settings.certification.maxInputLength.None?
    && settings.designation.maxInputLength.None?
    && settings.technicalSkill.modelName1 == "" && settings.technicalSkill.modelName2 == ""
    && settings.softSkill.modelName1 == "" && settings.softSkill.modelName2 == ""
  }

  /** The five keys such an engine can never score. */
  predicate SilentKeysZero(es: EngineState)
  {
    ToolKey in es.report && es.report[ToolKey] == 0.0
    && CertificationKey in es.report && es.report[CertificationKey] == 0.0
    && DesignationKey in es.report && es.report[DesignationKey] == 0.0
    && TechnicalSkillKey in es.report && es.report[TechnicalSkillKey] == 0.0
    && SoftSkillKey in es.report && es.report[SoftSkillKey] == 0.0
    && !es.technicalSkill.modelsLoaded && !es.softSkill.modelsLoaded
  }

  lemma {:induction false} RunFromSilent(es: EngineState, settings: Settings, oracles: Oracles, i: nat)
    requires i <= |Keys| && DefaultSetups(settings) && SilentKeysZero(es)
    ensures SilentKeysZero(RunFrom(es, settings, oracles, i))
    decreases |Keys| - i
  {
    if i < |Keys| {
      AfterKeySilent(Keys[i], es, settings, oracles);
      RunFromSilent(AfterKey(Keys[i], es, settings, oracles), settings, oracles, i + 1);
    }
  }

  lemma AfterKeySilent(key: string, es: EngineState, settings: Settings, oracles: Oracles)
    requires key in Keys && DefaultSetups(settings) && SilentKeysZero(es)
    ensures SilentKeysZero(AfterKey(key, es, settings, oracles))
  {
    var (next, s) := RunStep(key, es, settings, oracles);
    RunStepFrame(key, es, settings, oracles);
    if key == ToolKey || key == CertificationKey || key == DesignationKey {
      NoLimitScoresZero(key, es, settings, oracles);
    } else if key == TechnicalSkillKey || key == SoftSkillKey {
      NamelessSkillScoresZero(key, es, settings, oracles);
    }
  }

  /** With the default setups only education and experience can ever score:
      the other five keys stay at 0.0 through any number of `getMatch`
      calls. */
  lemma DefaultEngineScoresOnlyEducationAndExperience(es: EngineState, settings: Settings, oracles: Oracles)
    requires DefaultSetups(settings) && SilentKeysZero(es)
    ensures SilentKeysZero(GetMatchStep(es, settings, oracles).0)
  {
    if Present(es.resumeJson) && Present(es.jdJson) {
      RunFromSilent(es, settings, oracles, 0);
    }
  }

  // ---------------------------------------------------------------------------
  // The engine
  // ---------------------------------------------------------------------------

  function SetupOfMatcher(m: ListMatcher): MatcherSetup
  {
    MatcherSetup(m.modelName1, m.modelName2, m.maxInputLength)
  }

  /** `setInputs` and `makeMatch` on one list matcher, failures scoring 0.0. */
  method RunListMatcher(m: ListMatcher, resume: PyText, job: PyText, sim1: Cosine, sim2: Cosine, loaderError: Option<string>, encodeError: Option<string>)
    returns (score: real)
    requires m.Valid()
    modifies m, m.similarity
    ensures (m.State(), score) == RunListStep(m.category, SetupOfMatcher(m), old(m.State()), resume, job, sim1, sim2, loaderError, encodeError)
  {
    var s := m.SetInputs(resume, job);
    if s.Err? {
      return 0.0;
    }
    var r := m.MakeMatch(sim1, sim2, loaderError, encodeError);
    score := Degrade(r);
  }

  /** No two of the matchers, and no two of their similarity objects, are
      the same object. */
  predicate Apart(ms: seq<ListMatcher>)
  {
    forall i, j | 0 <= i < j < |ms| :: ms[i] != ms[j] && ms[i].similarity != ms[j].similarity
  }

  /** The six list matchers of a new engine, each built with its defaults. */
  method NewListMatchers(educationConfig: PackageConfig, technicalLimit: Option<nat>, softLimit: Option<nat>,
                         toolConfig: PackageConfig, designationConfig: PackageConfig)
    returns (e: ListMatcher, t: ListMatcher, s: ListMatcher, o: ListMatcher, c: ListMatcher, d: ListMatcher)
    ensures Apart([e, t, s, o, c, d])
    ensures fresh(e) && fresh(t) && fresh(s) && fresh(o) && fresh(c) && fresh(d)
    ensures fresh(e.similarity) && fresh(t.similarity) && fresh(s.similarity)
    ensures fresh(o.similarity) && fresh(c.similarity) && fresh(d.similarity)
    ensures e.Valid() && t.Valid() && s.Valid() && o.Valid() && c.Valid() && d.Valid()
    ensures e.category == Education && t.category == Skill && s.category == Skill
    ensures o.category == Tool && c.category == Certification && d.category == Designation
    ensures SetupOfMatcher(e) == MatcherSetup(educationConfig.modelName1, educationConfig.modelName2, educationConfig.maxInputLength)
    ensures SetupOfMatcher(t).modelName1 == "" && SetupOfMatcher(t).modelName2 == ""
    ensures SetupOfMatcher(s).modelName1 == "" && SetupOfMatcher(s).modelName2 == ""
    ensures o.maxInputLength.None? && c.maxInputLength.None? && d.maxInputLength.None?
    ensures e.State() == t.State() == s.State() == o.State() == d.State()
         == MatcherState(false, None, None, SimState(None, None, []))
    ensures c.State() == MatcherState(true, None, None, SimState(None, None, []))
  {
    e := EducationMatchmaker.NewEducationMatching(None, None, educationConfig);
    t := SkillMatchmaker.NewTechnicalSkillMatching(None, technicalLimit);
    s := SkillMatchmaker.NewSoftSkillMatching(None, softLimit);
    o := ToolsMatchmaker.NewToolMatching(None, None, None, toolConfig);
    c := CertificationMatchmaker.NewCertificationMatching(None);
    d := DesignationMatchmaker.NewDesignationMatching(None, None, None, designationConfig);
  }

  class MatchingEngine {
    const education: ListMatcher
    const experience: Experience.ExperienceMatching
    const technicalSkill: ListMatcher
    const softSkill: ListMatcher
    const tool: ListMatcher
    const certification: ListMatcher
    const designation: ListMatcher
    /** The parsed documents; callers assign them directly. */
    var resumeJson: Option<Document>
    var jdJson: Option<Document>
    var matchReport: map<string, real>

    /** The objects the engine's matchers are made of. */
    function Matchers(): set<object>
    {
      {education, education.similarity, technicalSkill, technicalSkill.similarity,
       softSkill, softSkill.similarity, tool, tool.similarity, certification, certification.similarity,
       designation, designation.similarity,
       experience, experience.similarity, experience.resumeNumeralizer, experience.jobNumeralizer}
    }

    function Repr(): set<object>
    {
      {this} + Matchers()
    }

    function ListMatchers(): seq<ListMatcher>
    {
      [education, technicalSkill, softSkill, tool, certification, designation]
    }

    /** Each matcher has its key's category and rule, and no two matchers
        share an object. */
    predicate Valid()
    {
      education.category == Education && technicalSkill.category == Skill && softSkill.category == Skill
      && tool.category == Tool && certification.category == Certification && designation.category == Designation
      && (forall i | 0 <= i < 6 :: ListMatchers()[i].Valid())
      && Apart(ListMatchers())
      && experience.Valid()
    }

    function Settings(): Settings
    {
      MatcherSettings(SetupOfMatcher(education),
               MatcherSetup(experience.modelName1, experience.modelName2, experience.maxInputLength),
               SetupOfMatcher(technicalSkill), SetupOfMatcher(softSkill), SetupOfMatcher(tool),
               SetupOfMatcher(certification), SetupOfMatcher(designation))
    }

    function State(): EngineState
      reads Repr()
    {
      EngineState(resumeJson, jdJson, matchReport, education.State(), experience.State(),
                  technicalSkill.State(), softSkill.State(), tool.State(), certification.State(), designation.State())
    }

    /** `MatchingEngine()`: every matcher built with its defaults; the
        configuration values each package reads are parameters. */
    constructor(educationConfig: PackageConfig, experienceConfig: PackageConfig, technicalLimit: Option<nat>,
                softLimit: Option<nat>, toolConfig: PackageConfig, designationConfig: PackageConfig)
      ensures Valid()
      ensures fresh(Matchers())
      ensures State() == EngineState(None, None, InitialReport,
        MatcherState(false, None, None, SimState(None, None, [])),
        Experience.ExperienceState(false, None, None, Experience.ScoreState(None, None, None),
          Experience.NumeralizerState([], Some("sum")), Experience.NumeralizerState([], Some("avg")), 1.0),
        MatcherState(false, None, None, SimState(None, None, [])),
        MatcherState(false, None, None, SimState(None, None, [])),
        MatcherState(false, None, None, SimState(None, None, [])),
        MatcherState(true, None, None, SimState(None, None, [])),
        MatcherState(false, None, None, SimState(None, None, [])))
      ensures DefaultSetups(Settings())
      ensures Settings().education == MatcherSetup(educationConfig.modelName1, educationConfig.modelName2, educationConfig.maxInputLength)
      ensures Settings().experience == MatcherSetup(experienceConfig.modelName1, experienceConfig.modelName2, experienceConfig.maxInputLength)
      ensures EngineCoherent(State()) && WellFormedReport(matchReport) && SilentKeysZero(State())
    {
      var e, t, s, o, c, d := NewListMatchers(educationConfig, technicalLimit, softLimit, toolConfig, designationConfig);
      var x := new Experience.ExperienceMatching(None, None, experienceConfig);
      education := e;
      experience := x;
      technicalSkill := t;
      softSkill := s;
      tool := o;
      certification := c;
      designation := d;
      resumeJson := None;
      jdJson := None;
      matchReport := InitialReport;
    }

    /** `_run_matcher(key)`. */
    method RunMatcher(key: string, oracles: Oracles) returns (score: real)
      requires Valid() && key in Keys
      modifies Repr()
      ensures (State(), score) == RunStep(key, old(State()), Settings(), oracles)
    {
      if resumeJson.None? || jdJson.None? {
        return 0.0;
      }
      if key == ExperienceKey {
        score := RunExperience(Entry(resumeJson.value, key), Entry(jdJson.value, key),
                               oracles.sim1(key), oracles.sim2(key), oracles.loaderError(key), oracles.encodeError(key));
      } else {
        score := RunListKey(key, oracles);
      }
    }

    /** The experience matcher runs; the rest of the engine is left alone. */
    method RunExperience(resume: PyText, job: PyText, sim1: Cosine, sim2: Cosine, loaderError: Option<string>, encodeError: Option<string>)
      returns (score: real)
      requires Valid()
      modifies experience, experience.similarity, experience.resumeNumeralizer, experience.jobNumeralizer
      ensures State() == old(State()).(experience := experience.State())
      ensures (experience.State(), score)
           == RunExperienceStep(Settings().experience, old(experience.State()), resume, job, sim1, sim2, loaderError, encodeError)
    {
      var s := experience.SetInputs(resume, job);
      if s.Err? {
        return 0.0;
      }
      var r := experience.MakeMatch(sim1, sim2, loaderError, encodeError);
      score := Degrade(r);
    }

    /** The list matcher behind a key. */
    function MatcherOf(key: string): ListMatcher
      requires IsListKey(key)
    {
      if key == EducationKey then education
      else if key == TechnicalSkillKey then technicalSkill
      else if key == SoftSkillKey then softSkill
      else if key == ToolKey then tool
      else if key == CertificationKey then certification
      else designation
    }

    /** `_run_matcher(key)` for a key with a list matcher. */
    method RunListKey(key: string, oracles: Oracles) returns (score: real)
      requires Valid() && IsListKey(key) && resumeJson.Some? && jdJson.Some?
      modifies Repr()
      ensures (State(), score) == RunStep(key, old(State()), Settings(), oracles)
    {
      var m := MatcherOf(key);
      score := RunListOf(key, m, Entry(resumeJson.value, key), Entry(jdJson.value, key),
                         oracles.sim1(key), oracles.sim2(key), oracles.loaderError(key), oracles.encodeError(key));
    }

    /** One list matcher runs; the rest of the engine is left alone. */
    method RunListOf(key: string, m: ListMatcher, resume: PyText, job: PyText, sim1: Cosine, sim2: Cosine,
                     loaderError: Option<string>, encodeError: Option<string>) returns (score: real)
      requires Valid() && IsListKey(key) && m == MatcherOf(key)
      modifies m, m.similarity
      ensures State() == WithListState(old(State()), key, m.State())
      ensures (m.State(), score) == RunListStep(CategoryOf(key), SetupOf(Settings(), key), old(m.State()), resume, job, sim1, sim2, loaderError, encodeError)
    {
      assert ListMatchers()[0].Valid() && ListMatchers()[1].Valid() && ListMatchers()[2].Valid();
      assert ListMatchers()[3].Valid() && ListMatchers()[4].Valid() && ListMatchers()[5].Valid();
      score := RunListMatcher(m, resume, job, sim1, sim2, loaderError, encodeError);
    }

    /** One round of the `getMatch` loop. */
    method RunAndRecord(key: string, oracles: Oracles)
      requires Valid() && key in Keys
      modifies Repr()
      ensures State() == AfterKey(key, old(State()), Settings(), oracles)
    {
      var score := RunMatcher(key, oracles);
      matchReport := matchReport[key := score];
    }

    /** The loop of `getMatch`: every key in order. */
    method RunAll(oracles: Oracles)
      requires Valid()
      modifies Repr()
      ensures State() == RunFrom(old(State()), Settings(), oracles, 0)
    {
      var i := 0;
      while i < |Keys|
        invariant i <= |Keys|
        invariant RunFrom(State(), Settings(), oracles, i) == RunFrom(old(State()), Settings(), oracles, 0)
      {
        RunAndRecord(Keys[i], oracles);
        i := i + 1;
      }
    }

    /** `getMatch()`: each key's score is written to that key only. */
    method GetMatch(oracles: Oracles) returns (report: map<string, real>)
      requires Valid()
      modifies Repr()
      ensures (State(), report) == GetMatchStep(old(State()), Settings(), oracles)
    {
      if !Present(resumeJson) || !Present(jdJson) {
        return matchReport;
      }
      RunAll(oracles);
      return matchReport;
    }
  }
}
