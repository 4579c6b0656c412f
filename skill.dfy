/** `SkillMatching` and its two specialisations. `SkillMatching` keeps
    whatever names and limit it is given, `None` included; the technical
    and soft skill subclasses pass no names at all and take the limit from
    the configuration unless one is given. */
module SkillMatchmaker {

  import opened Wrappers
  import opened Ensemble
  import opened ListMatching

  method NewSkillMatching(modelName1: string, modelName2: string, maxInputLength: Option<nat>)
    returns (m: ListMatcher)
    ensures fresh(m) && fresh(m.similarity) && m.Valid() && m.category == Skill
    ensures m.modelName1 == modelName1 && m.modelName2 == modelName2 && m.maxInputLength == maxInputLength
    ensures m.State() == MatcherState(false, None, None, SimState(None, None, []))
  {
    m := new ListMatcher(Skill, modelName1, modelName2, maxInputLength);
  }

  /** The limit a subclass passes on: the argument, or the configured value
      when the argument is `None`. */
  function LimitOrDefault(arg: Option<nat>, configured: Option<nat>): (r: Option<nat>)
    ensures arg.Some? ==> r == arg
    ensures arg.None? ==> r == configured
  {
    if arg.None? then configured else arg
  }

  /** `TechnicalSkillMatching(maxInputLength)`, with `configured` the
      configuration's `TECHNICAL_MAX_INPUT_LENGTH`. */
  method NewTechnicalSkillMatching(maxInputLength: Option<nat>, configured: Option<nat>)
    returns (m: ListMatcher)
    ensures fresh(m) && fresh(m.similarity) && m.Valid() && m.category == Skill
    ensures m.modelName1 == "" && m.modelName2 == ""
    ensures m.maxInputLength == LimitOrDefault(maxInputLength, configured)
    ensures m.State() == MatcherState(false, None, None, SimState(None, None, []))
  {
    m := NewSkillMatching("", "", LimitOrDefault(maxInputLength, configured));
  }

  /** `SoftSkillMatching(maxInputLength)`, with `configured` the
      configuration's `SOFT_MAX_INPUT_LENGTH`. */
  method NewSoftSkillMatching(maxInputLength: Option<nat>, configured: Option<nat>)
    returns (m: ListMatcher)
    ensures fresh(m) && fresh(m.similarity) && m.Valid() && m.category == Skill
    ensures m.modelName1 == "" && m.modelName2 == ""
    ensures m.maxInputLength == LimitOrDefault(maxInputLength, configured)
    ensures m.State() == MatcherState(false, None, None, SimState(None, None, []))
  {
    m := NewSkillMatching("", "", LimitOrDefault(maxInputLength, configured));
  }

  /** Without model names and without models, `makeMatch` fails to load
      the models before it looks at the inputs, whatever they are. */
  lemma NamelessSkillMatcherFails(st: MatcherState, sim1: Selection.Cosine, sim2: Selection.Cosine, loaderError: Option<string>, encodeError: Option<string>)
    requires !st.modelsLoaded
    ensures MatchStep(Skill, "", "", st, sim1, sim2, loaderError, encodeError)
         == (st, Err(RuntimeError("Failed to load models: " + ModelNamesMessage)))
  {
    LoadFailureStopsMatch(Skill, "", "", st, sim1, sim2, loaderError, encodeError);
  }
}
