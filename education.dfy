/** `EducationMatching`'s constructor. The model names fall back on the
    package configuration; the length limit is always the configured
    `MAX_INPUT_LENGTH`. Everything else is `ListMatching.ListMatcher` with
    the education category. */
module EducationMatchmaker {

  import opened Wrappers
  import opened Ensemble
  import opened ListMatching

  method NewEducationMatching(modelName1: Option<string>, modelName2: Option<string>, config: PackageConfig)
    returns (m: ListMatcher)
    ensures fresh(m) && fresh(m.similarity) && m.Valid() && m.category == Education
    ensures m.modelName1 == NameOrDefault(modelName1, config.modelName1)
    ensures m.modelName2 == NameOrDefault(modelName2, config.modelName2)
    ensures m.maxInputLength == config.maxInputLength
    ensures m.State() == MatcherState(false, None, None, SimState(None, None, []))
  {
    m := new ListMatcher(Education, NameOrDefault(modelName1, config.modelName1),
                         NameOrDefault(modelName2, config.modelName2), config.maxInputLength);
  }
}
