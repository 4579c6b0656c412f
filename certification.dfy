/** `CertificationMatching`'s constructor. It binds the two process-wide
    models at once and has no model names and no `loadModels`; the length
    limit is the argument, `None` when it is left out. */
module CertificationMatchmaker {

  import opened Wrappers
  import opened Ensemble
  import opened ListMatching

  method NewCertificationMatching(maxInputLength: Option<nat>) returns (m: ListMatcher)
    ensures fresh(m) && fresh(m.similarity) && m.Valid() && m.category == Certification
    ensures m.maxInputLength == maxInputLength
    ensures m.State() == MatcherState(true, None, None, SimState(None, None, []))
  {
    m := new ListMatcher(Certification, "", "", maxInputLength);
  }
}
