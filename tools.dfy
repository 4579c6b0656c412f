/** `ToolMatching`'s constructor. The model names fall back on the package
    configuration; the length limit is the argument, `None` when it is
    left out. */
module ToolsMatchmaker {

  import opened Wrappers
  import opened Ensemble
  import opened ListMatching

  method NewToolMatching(modelName1: Option<string>, modelName2: Option<string>, maxInputLength: Option<nat>, config: PackageConfig)
    returns (m: ListMatcher)
    ensures fresh(m) && fresh(m.similarity) && m.Valid() && m.category == Tool
    ensures m.modelName1 == NameOrDefault(modelName1, config.modelName1)
    ensures m.modelName2 == NameOrDefault(modelName2, config.modelName2)
    ensures m.maxInputLength == maxInputLength
    ensures m.State() == MatcherState(false, None, None, SimState(None, None, []))
  {
    m := new ListMatcher(Tool, NameOrDefault(modelName1, config.modelName1),
                         NameOrDefault(modelName2, config.modelName2), maxInputLength);
  }
}
