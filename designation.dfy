/** `DesignationMatching`'s constructor. The model names fall back on the
    package configuration and only guard `loadModels`, which binds the
    process-wide models; the length limit is the argument, `None` when it is
    left out. */
module DesignationMatchmaker {

  import opened Wrappers
  import opened Ensemble
  import opened ListMatching

  method NewDesignationMatching(modelName1: Option<string>, modelName2: Option<string>, maxInputLength: Option<nat>, config: PackageConfig)
    returns (m: ListMatcher)
    ensures fresh(m) && fresh(m.similarity) && m.Valid() && m.category == Designation
    ensures m.modelName1 == NameOrDefault(modelName1, config.modelName1)
    ensures m.modelName2 == NameOrDefault(modelName2, config.modelName2)
    ensures m.maxInputLength == maxInputLength
    ensures m.State() == MatcherState(false, None, None, SimState(None, None, []))
  {
    m := new ListMatcher(Designation, NameOrDefault(modelName1, config.modelName1),
                         NameOrDefault(modelName2, config.modelName2), maxInputLength);
  }
}
