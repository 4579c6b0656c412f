# ScoreIt.AI category matching, modelled in Dafny

This project models the part of ScoreIt.AI that scores a resume against a job description. The resume and the job description arrive as two parsed documents. The model covers:

- `sanitizeInput`: the UTF-8 decoding, length cap, HTML escaping and strip that every matcher applies to its inputs.
- The five list-valued matchers: education, skill (with its technical and soft variants), tools, certification and designation. Each matcher:
  - splits the sanitized texts at commas;
  - scores each requirement item against the resume items with two embedding models;
  - rewrites the two score lists with its own boost/damp rule;
  - averages the pairs and reduces the result to one number.
- The experience matcher: the two-score ensemble, the numeraliser that reads years out of free text, and the years factor that scales the score.
- The matching engine: one matcher per category, and `getMatch`, which fills the seven-key report.
- The job-description scraper's post-processing, the rule that decides whether extracted text is kept, and its reset.

The embedding models and cosine similarity are parameters of type `Cosine`: functions from two texts to a real in [-1, 1]. Whether a model fails to load is the parameter `loaderError`; the exception the embedding models raise while encoding, if any, is the parameter `encodeError`. Python exceptions are `Err` values that carry the exception class and message. Every class of the source that updates its fields is a Dafny class. Each of its methods is proved equal to a step function on a state value (`SetInputsStep`, `MatchStep`, `HardStep`, `RunStep`, …). The properties are lemmas about those step functions.

Files:
- `wrappers.dfy`: `Option`, `Result`, the Python exception classes, and `PyText`, a text argument that may be `None` or `[]`.
- `text.dfy`: `strip`, `split(',')` and substring search.
- `scoring.dfy`: clamps, sum, mean, max and min.
- `security.dfy`: `sanitizeInput`.
- `selection.dfy`: the nested selection loops.
- `ensemble.dfy`: the list `*Similarity` classes.
- `list_matching.dfy`: the list `*Matching` classes, as one class tagged with its `Category`.
- `education.dfy`, `skill.dfy`, `tools.dfy`, `certification.dfy`, `designation.dfy`: each category's constructor.
- `experience.dfy`: the experience matcher.
- `engine.dfy`: the matching engine.
- `jd_scraper.dfy`: the job-description scraper.

## Model

| member | source | states |
|---|---|---|
| Scoring.Clamp0 | src/education_matchmaker/education_matching.py:148-149 | `max(x, 0)` is at least 0 and at least x, and is one of the two |
| Scoring.Min1 | src/education_matchmaker/education_matching.py:168 | `min(1.0, x)` is at most 1 and at most x, and is one of the two |
| Scoring.MaxOf | src/education_matchmaker/education_matching.py:168 | `max(scores)` bounds every element and is one of them |
| Scoring.MinOf | src/experience_matchmaker/experience_matching.py:127 | `min(years)` is below every element and is one of them |
| Scoring.SumBounds | src/tools_matchmaker/tools_matching.py:166 | a sum of n values in [lo, hi] lies in [n·lo, n·hi] |
| Scoring.MeanBounds | src/tools_matchmaker/tools_matching.py:166 | `np.mean` of values in [lo, hi] lies in [lo, hi] |
| Scoring.MeanBetweenMinAndMax | src/experience_matchmaker/experience_matching.py:122-129 | the mean lies between the minimum and the maximum |
| Scoring.SumNonNegative | src/experience_matchmaker/experience_matching.py:128-129 | a sum of non-negative values is non-negative |
| Scoring.SumDominates | src/experience_matchmaker/experience_matching.py:128-129 | a sum of non-negative values is at least each of them |
| Scoring.SumAppend | src/experience_matchmaker/experience_matching.py:128-129 | the sum over two lists joined is the sum of their sums |
| Scoring.RepeatedListMean | src/experience_matchmaker/experience_matching.py:124-129 | a list repeated twice has twice the sum and the same `np.mean` |
| Scoring.MeanOfTestEnsemble | tests/unit_tests/test_certification_matchmaker.py:180-182 | the mean of [0.7, 0.8] is 0.75 |
| Text.TrimLeftSpec | src/utils/security.py:51 | left trimming removes exactly the leading whitespace |
| Text.TrimRightSpec | src/utils/security.py:51 | right trimming removes exactly the trailing whitespace |
| Text.StripSpec | src/utils/security.py:51 | `strip()` returns a contiguous piece of its input with no whitespace at either end, and leaves a text without whitespace unchanged |
| Text.BlankStripsToEmpty | src/utils/security.py:51 | a whitespace-only text strips to "" |
| Text.StripIdempotent | src/utils/security.py:51 | stripping twice is stripping once |
| Text.StrippedIsFixed | src/utils/security.py:51 | a text with no whitespace at its ends is its own strip |
| Text.Split | src/education_matchmaker/education_matching.py:117-118 | `split(',')` yields at least one piece, and no piece contains a comma |
| Text.JoinSplit | src/education_matchmaker/education_matching.py:117-118 | joining the pieces with ',' gives the text back |
| Text.FindFrom | src/jd_scraper/jd_scraper.py:55 | the result is the first occurrence at or after `from`, or there is none |
| Text.Find | src/jd_scraper/jd_scraper.py:54-55 | found iff `phrase in text`, and then at its first occurrence |
| Security.ValidTail | src/utils/security.py:45-46 | the count of valid continuation bytes is bounded by the sequence length and the input |
| Security.DecodeOne | src/utils/security.py:45-46 | decoding one character consumes at least one byte and no more than remain |
| Security.DecodeFrom | src/utils/security.py:45-46 | decoding yields at most one character per byte |
| Security.AsciiDecodesVerbatim | src/utils/security.py:45-46 | ASCII bytes decode one for one to the same characters |
| Security.StrayByteIsReplaced | src/utils/security.py:46 | a byte that cannot start a sequence becomes one U+FFFD, with errors='replace' |
| Security.Utf8Decode | src/utils/security.py:45-46 | `bytes.decode('utf-8', errors='replace')`: ASCII bytes decode verbatim (AsciiDecodesVerbatim), a byte that cannot start a sequence becomes one U+FFFD (StrayByteIsReplaced), and no more characters come out than bytes go in (DecodeFrom) |
| Security.Decoded | src/utils/security.py:45-46 | the text the length check and the escaping see: a text as given, bytes decoded first; SanitizeInput's length iff is stated on it |
| Security.EscapeAppend | src/utils/security.py:51 | `html.escape` works character by character: it distributes over concatenation |
| Security.EscapeChar | src/utils/security.py:51 | `html.escape` on one character: `&`, `<`, `>`, `"`, `'` become `&amp;`, `&lt;`, `&gt;`, `&quot;`, `&#x27;`, every other character is kept; EscapeSingle and UnescapeOne are stated about it |
| Security.HtmlEscape | src/utils/security.py:51 | `html.escape(s)`, character by character: inverted by Unescape (EscapeRoundTrip), markup-free (EscapeIsMarkupFree), every `&` starts an entity (EscapeEntitiesOnly), and commutes with `strip` (StripEscapeCommute) |
| Security.Unescape | src/utils/security.py:51 | the reference inverse of the escape, reading back its five entities; EscapeRoundTrip and UnescapeRoundTrip make the two mutually inverse on escaped texts |
| Security.EscapeAppend3 | src/utils/security.py:51 | escaping distributes over a concatenation of three texts |
| Security.UnescapeOne | src/utils/security.py:51 | the inverse reads back one escaped character |
| Security.EscapeRoundTrip | src/utils/security.py:51 | unescaping the escaped text gives the original text |
| Security.EscapeIsMarkupFree | src/utils/security.py:51 | the escaped text has no raw `<`, `>`, `"` or `'` |
| Security.EscapeEntitiesOnly | src/utils/security.py:51 | every `&` that escaping writes starts one of the five entities, so no raw ampersand is left |
| Security.UnescapeRoundTrip | src/utils/security.py:51 | a markup-free text whose every `&` starts an entity is the escape of what it unescapes to: those two properties characterise the escaped texts |
| Security.EscapeEdges | src/utils/security.py:51 | escaping never touches whitespace and never yields whitespace at an escaped character's edge |
| Security.TrimLeftEscape | src/utils/security.py:51 | left trimming commutes with escaping |
| Security.TrimRightEscape | src/utils/security.py:51 | right trimming commutes with escaping |
| Security.StripEscapeCommute | src/utils/security.py:51 | `escape(s).strip() == escape(s.strip())` |
| Security.EscapedTextProperties | src/utils/security.py:51 | the sanitized text is stripped and markup-free, and it unescapes to the stripped input |
| Security.StripKeepsMarkupFree | src/utils/security.py:51 | stripping keeps a markup-free text markup-free |
| Security.NatToString | src/utils/security.py:49 | the decimal rendering of the limit is never empty |
| Security.SanitizeInput | src/utils/security.py:35-53 | a None limit raises TypeError; otherwise success iff the decoded length is at most the limit, else ValueError with the source's message; a success is stripped, has no raw `<`, `>`, `"`, `'` and no `&` outside an entity, and unescapes to the stripped input (so it is exactly that input's escape, SanitizedTextIsDetermined) |
| Security.SanitizedTextIsDetermined | src/utils/security.py:48-53 | the success contract of SanitizeInput admits exactly one output, the escape of the stripped input |
| Security.SanitizeShort | src/utils/security.py:48-53 | a text within the limit whose escape has no surrounding whitespace is sanitized to its escape |
| Security.CapIsCheckedBeforeEscaping | src/utils/security.py:48-51 | the cap rejects rather than truncates, and is checked before escaping: "<" passes a limit of 1 and becomes "&lt;" |
| Security.EscapePlainIsIdentity | src/utils/security.py:51 | text without `&` or markup escapes to itself |
| Security.EscapeSingle | src/utils/security.py:51 | one character escapes to its own entity |
| Security.EscapeTag | src/utils/security.py:51 | a tag around a name with no markup or `&` keeps the name and escapes both brackets: `<script>` becomes `&lt;script&gt;` |
| Security.ScriptTagIsEscaped | src/utils/security.py:35-53 | `sanitizeInput("<script>", 8)` is `&lt;script&gt;` |
| Security.EscapeBetween | src/utils/security.py:51 | a plain word between two characters keeps the word and has the two characters escaped |
| Security.EscapeScriptAlert | src/utils/security.py:51 | `<script>alert('test')</script>` escapes to `&lt;script&gt;alert(&#x27;test&#x27;)&lt;/script&gt;` |
| Security.ScriptAlertIsEscaped | tests/unit_tests/test_utils.py:35-37 | `sanitizeInput("<script>alert('test')</script>", 100)` is `&lt;script&gt;alert(&#x27;test&#x27;)&lt;/script&gt;` |
| Security.TooLongIsRejected | tests/unit_tests/test_utils.py:38-41 | `"123456"`, as text and as bytes, is rejected under a limit of 5 with "Input exceeds maximum length of 5 characters." |
| Selection.MatchPrefix | src/education_matchmaker/education_matching.py:133-155 | after n requirement items the outer loop has recorded exactly n scores in each list |
| Selection.GreedyMatch | src/education_matchmaker/education_matching.py:130-157 | the greedy nested loop (skip consumed candidates, skip blanks, keep the first strictly greater model-1 score, consume the winner) yields the two lists of `MatchAll` |
| Selection.Eligible | src/education_matchmaker/education_matching.py:141-145 | the candidates the inner loop scores: its raw text is not in the consumed record, and neither the stripped requirement item nor the candidate's key text is blank |
| Selection.ScanPrefix | src/education_matchmaker/education_matching.py:140-153 | the inner loop after `n` candidates: running maxima starting at (0, the category's model-2 default) and the winner's key; ScanSelectsFirstGreatest states that it picks the first eligible candidate with the strictly greatest model-1 score |
| Selection.MatchAll | src/education_matchmaker/education_matching.py:133-157 | the whole greedy assignment over the requirement items; ItemScores, MatchPrefixKeeps, RawKeysAssignOnce and GreedyScoresInUnit are stated about it |
| Selection.ScanSelectsFirstGreatest | src/education_matchmaker/education_matching.py:140-153 | the inner loop's model-1 score is the greatest clamped score of an eligible candidate (or 0), its model-2 score is that candidate's, and the winner is the first candidate reaching that score |
| Selection.MatchPrefixKeeps | src/education_matchmaker/education_matching.py:133-157 | an item's scores are fixed once the outer loop passes it, and the consumed set only grows |
| Selection.ItemScores | src/education_matchmaker/education_matching.py:133-155 | item k is scored by the inner loop over the candidates not consumed by items 0..k-1 |
| Selection.MatchedAreStripped | src/education_matchmaker/education_matching.py:143-157 | with stripped keys, the consumed set holds only stripped texts |
| Selection.PaddedCandidatesNeverConsumed | src/education_matchmaker/education_matching.py:141-143 | a candidate with whitespace at an end is looked up raw but recorded stripped, so it is never skipped as consumed |
| Selection.RawKeysAssignOnce | src/certification_matchmaker/certification_matching.py:128-144 | keyed by raw text, a candidate that won item j is never a winner of a later item |
| Selection.IndependentPrefix | src/skill_matchmaker/skill_matching.py:104-121 | the skill outer loop records one score per item in each list |
| Selection.IndependentMatch | src/skill_matchmaker/skill_matching.py:102-121 | the skill nested loop (running maxima, model-2 starting at 1, no consumption) yields the lists of `IndependentPrefix` |
| Selection.IndependentScan | src/skill_matchmaker/skill_matching.py:106-119 | the skill inner loop: independent running maxima of both scores, starting at 0 and 1; IndependentScanIsMaximum states that model 1 gets the maximum over the non-blank candidates |
| Selection.IndependentScanIsMaximum | src/skill_matchmaker/skill_matching.py:110-119 | the skill model-1 score is the greatest clamped score over non-blank candidates, or 0 |
| Selection.EmptyItemScoresZero | src/skill_matchmaker/skill_matching.py:112-113 | a blank item, or only blank candidates, scores 0 on model 1 |
| Selection.IndependentItems | src/skill_matchmaker/skill_matching.py:104-121 | each skill item is scored as if it were alone |
| Selection.ScanInUnit | src/education_matchmaker/education_matching.py:148-153 | the inner loop's pair lies in [0, 1] |
| Selection.GreedyScoresInUnit | src/education_matchmaker/education_matching.py:154-155 | every recorded greedy score lies in [0, 1] |
| Selection.IndependentScoresInUnit | src/skill_matchmaker/skill_matching.py:118-121 | skill model-1 scores lie in [0, 1], and every model-2 score is exactly 1 |
| Ensemble.Adjust | src/education_matchmaker/education_matching.py:62-68 | a rule's rewrite of a pair is zero exactly where the input was, keeps [0, 1] scores in [0, 1], and never pushes a score above 1 |
| Ensemble.AdjustFirst | src/tools_matchmaker/tools_matching.py:61-63 | what a rule writes to the model-1 score from that score alone, also what is left written when the model-2 read then fails |
| Ensemble.Adjusted1 | src/tools_matchmaker/tools_matching.py:61-63 | the rewritten model-1 list keeps its length |
| Ensemble.Adjusted2 | src/tools_matchmaker/tools_matching.py:61-65 | the rewritten model-2 list keeps its length |
| Ensemble.Averages | src/education_matchmaker/education_matching.py:54-56 | each appended value is the mean of some pair with two non-zero scores, and there are at most n of them |
| Ensemble.AveragesCount | src/education_matchmaker/education_matching.py:54-56 | exactly one value is appended per pair of non-zero scores |
| Ensemble.AdjustKeepsAveragedPairs | src/skill_matchmaker/skill_matching.py:39-44 | the boost/damp rewrite never changes which pairs are averaged |
| Ensemble.AveragesInUnit | src/education_matchmaker/education_matching.py:54-56 | pairs in [0, 1] average to values in (0, 1] |
| Ensemble.HardStepOnUnitScores | src/designation_matchmaker/designation_matching.py:57-65 | on equally long lists in [0, 1], `hardEnsemble` succeeds, keeps the lists in [0, 1], keeps the old ensemble as a prefix and appends one value in (0, 1] per averaged pair |
| Ensemble.EducationEqualScoresDamp | src/education_matchmaker/education_matching.py:62-69 | two equal perfect scores are damped to 0.7 each and contribute 0.7 |
| Ensemble.EnsembleStepIsStable | src/education_matchmaker/education_matching.py:71-79 | once `getEnsembleScore` has returned a non-empty list, calling it again returns that list and changes nothing |
| Ensemble.ListSimilarity.AverageEnsemble | src/education_matchmaker/education_matching.py:51-56 | the loop appends the means of the non-zero pairs, raises ValueError when a list is unset, and raises IndexError when model 1 is longer and non-zero past model 2's end |
| Ensemble.ListSimilarity.HardEnsemble | src/tools_matchmaker/tools_matching.py:58-66 | the in-place rewrite loop followed by averaging equals `HardStep`, including a partial rewrite before an IndexError |
| Ensemble.HardStep | src/tools_matchmaker/tools_matching.py:58-66 | `hardEnsemble`: rewrite each pair by the category's rule, then average; ValueError when a list is unset; HardStepOnUnitScores, AdjustKeepsAveragedPairs and ListMatching.HardStepCoherent are stated about it |
| Ensemble.ListSimilarity.GetEnsembleScore | src/education_matchmaker/education_matching.py:71-79 | a non-empty list is returned as it is; an empty one runs `hardEnsemble`, whose ValueError becomes "Ensemble score has not been calculated." |
| Ensemble.EnsembleStep | src/education_matchmaker/education_matching.py:71-79 | `getEnsembleScore`: a non-empty list is returned as it is (EnsembleStepIsStable), an empty one reruns hardEnsemble and reports its ValueError as "Ensemble score has not been calculated." |
| Ensemble.ListSimilarity.SetModel1Score | src/education_matchmaker/education_matching.py:41-44 | stores the model-1 list and nothing else |
| Ensemble.ListSimilarity.SetModel2Score | src/education_matchmaker/education_matching.py:46-49 | stores the model-2 list and nothing else |
| Ensemble.ListSimilarity.Reset | src/education_matchmaker/education_matching.py:81-85 | both lists unset and the ensemble list empty |
| Ensemble.ListSimilarity.constructor | src/certification_matchmaker/certification_matching.py:36-39 | a new object has no scores and an empty ensemble |
| ListMatching.LoadModelsOutcome | src/education_matchmaker/education_matching.py:101-108 | loading succeeds iff both names are non-empty and the loader does not fail; an empty name gives "Model names cannot be empty."; a loader failure gives a RuntimeError |
| ListMatching.LoadOutcome | src/designation_matchmaker/designation_matching.py:98-105 | what loading gives per category: designation binds the shared models and fails only on an empty name, the others may also fail to load |
| ListMatching.Selected | src/education_matchmaker/education_matching.py:130-155 | the selection yields two lists with one entry per requirement item |
| ListMatching.LoadFailureStopsMatch | src/education_matchmaker/education_matching.py:121-125 | a failed load stops `makeMatch` with "Failed to load models: …" before it reads its inputs, and changes nothing |
| ListMatching.EncodeFailureStopsMatch | src/education_matchmaker/education_matching.py:129-163 | with models loaded and inputs set, an exception of the embedding models `e` gives "Failed to make match: " + e, and the similarity object is left as it was, since every category encodes before it stores anything (the matchers' "Encoding failed" tests) |
| ListMatching.SetInputsAccepts | src/education_matchmaker/education_matching.py:110-118 | `setInputs` succeeds iff both arguments pass the emptiness test, are strings and fit the limit; the stored items join and unescape back to the stripped inputs |
| ListMatching.PassesEmptinessTest | src/certification_matchmaker/certification_matching.py:94-95 | the emptiness test of `setInputs`: certification refuses only `None`, the other categories every falsy value |
| ListMatching.SetInputsStep | src/tools_matchmaker/tools_matching.py:108-116 | `setInputs`: emptiness, then type, then the sanitized comma-split lists, resume first; SetInputsAccepts gives its success iff and round trip |
| ListMatching.NoLimitRejectsEverything | src/tools_matchmaker/tools_matching.py:115-116 | without a length limit, every string pair is refused with a TypeError and nothing is stored |
| ListMatching.SelectedInUnit | src/education_matchmaker/education_matching.py:148-155 | both selected lists have one entry per item and lie in [0, 1] |
| ListMatching.SelectionCoherent | src/education_matchmaker/education_matching.py:159-160 | storing the selected lists gives a coherent similarity state |
| ListMatching.ReduceInUnit | src/education_matchmaker/education_matching.py:165-168 | reducing scores in [0, 1] gives a value in [0, 1], in every category |
| ListMatching.Reduce | src/education_matchmaker/education_matching.py:165-168 | the category's reduction: `min(1.0, max)` for education, the plain mean for skill and tools, `min(1.0, mean)` for certification and designation, 0.0 for an empty list; ReduceInUnit, SkillReduce and ReduceConstant are stated about it |
| ListMatching.HardStepCoherent | src/education_matchmaker/education_matching.py:58-69 | `hardEnsemble` on a coherent state with both lists set succeeds and keeps the state coherent |
| ListMatching.ConcludeInUnit | src/education_matchmaker/education_matching.py:165-168 | the reduced score lies in [0, 1], and the state stays coherent |
| ListMatching.Conclude | src/education_matchmaker/education_matching.py:165-168 | `getEnsembleScore` followed by the reduction; ConcludeInUnit, ConcludeEmpty and NoPairsConcludeZero are stated about it |
| ListMatching.ScoreStepInUnit | src/education_matchmaker/education_matching.py:129-168 | once the embedding models answer, the scoring half of `makeMatch` never fails (hardEnsemble raises nothing for the "Failed to make match" wrapper to report) and yields a score in [0, 1] |
| ListMatching.ScoreStep | src/education_matchmaker/education_matching.py:129-168 | the body of `makeMatch`'s `try` once models and inputs are there and the embedding models answer: select, store, hardEnsemble, conclude; ScoreStepInUnit states that it then never fails and scores in [0, 1] |
| ListMatching.MatchFailsExactly | src/education_matchmaker/education_matching.py:120-168 | `makeMatch` fails iff the models cannot be loaded, an input list is unset or the embedding models raise; a score lies in [0, 1]; coherence is kept |
| ListMatching.MatchStep | src/education_matchmaker/education_matching.py:120-168 | `makeMatch`: load when needed, refuse unset inputs, report an `encode` exception as "Failed to make match: …" with nothing stored, then score; MatchFailsExactly, LoadFailureStopsMatch and EncodeFailureStopsMatch are stated about it |
| ListMatching.EnsembleStepRepeats | src/education_matchmaker/education_matching.py:71-79 | a second `getEnsembleScore` reports the same list, even an empty one |
| ListMatching.ScoreAfterMatchAgrees | src/tools_matchmaker/tools_matching.py:168-179 | after a successful `makeMatch`, `getSimilarityScore` reports the same score |
| ListMatching.EducationScoreNeedsMakeMatch | src/education_matchmaker/education_matching.py:170-181 | education tests `ensembleScore is None`, which never holds, so on a fresh object it fails with "Ensemble score has not been calculated." |
| ListMatching.ScoreRunsMakeMatch | src/designation_matchmaker/designation_matching.py:167-178 | on a fresh object, `getSimilarityScore` is `makeMatch`, with its errors wrapped as "Failed to get similarity score: …" |
| ListMatching.GetScoreStep | src/tools_matchmaker/tools_matching.py:167-179 | `getSimilarityScore`: makeMatch only while the ensemble list is empty (never for education); ScoreAfterMatchAgrees, ScoreRunsMakeMatch and EducationScoreNeedsMakeMatch are stated about it |
| ListMatching.SkillHardStep | src/skill_matchmaker/skill_matching.py:36-44 | with every model-2 score at 1, the skill rule keeps it at 1, so every appended value is above 1/2 |
| ListMatching.SkillReduce | src/skill_matchmaker/skill_matching.py:129-132 | the mean of values in (1/2, 1] lies in (1/2, 1] |
| ListMatching.SkillScoreAboveHalf | src/skill_matchmaker/skill_matching.py:92-132 | a skill score is 0.0 or lies in (1/2, 1] |
| ListMatching.PerfectSelection | src/education_matchmaker/education_matching.py:133-155 | under perfect oracles, each item scores (0, ·) or (1, 1) |
| ListMatching.PerfectPairAdjust | src/education_matchmaker/education_matching.py:62-68 | a (1, 1) pair averages to 0.7 under the education rule and to 1 under the others |
| ListMatching.PerfectHardStep | src/education_matchmaker/education_matching.py:58-69 | such pairs append only the category's perfect value |
| ListMatching.AveragesAllEqual | src/education_matchmaker/education_matching.py:54-56 | pairs that all average to v append only v |
| ListMatching.NonZeroPairsPositive | src/education_matchmaker/education_matching.py:55 | one non-zero pair means at least one averaged value |
| ListMatching.NoPairsWithoutModel1 | src/education_matchmaker/education_matching.py:55 | all-zero model-1 scores average nothing |
| ListMatching.ReduceConstant | src/education_matchmaker/education_matching.py:166-168 | a list of equal values v in [0, 1] reduces to v |
| ListMatching.ConcludeEmpty | src/education_matchmaker/education_matching.py:165-167 | an ensemble that stays empty gives 0.0 |
| ListMatching.HardStepWithoutPairs | src/education_matchmaker/education_matching.py:58-69 | with no non-zero pair, `hardEnsemble` appends nothing, and the rewritten lists still have none |
| ListMatching.NoPairsConcludeZero | src/education_matchmaker/education_matching.py:161-167 | when no pair is averaged, the score is 0.0 |
| ListMatching.PerfectScores | src/education_matchmaker/education_matching.py:129-168 | perfect oracles score 0.0 or the perfect value, and the perfect value as soon as one pair is averaged |
| ListMatching.PerfectConclude | src/education_matchmaker/education_matching.py:161-168 | the same, from the stored lists |
| ListMatching.FirstItemMatchesItself | src/education_matchmaker/education_matching.py:140-153 | a non-blank first item that is also a resume item scores (1, 1) under perfect oracles |
| ListMatching.IdenticalListsScorePerfect | src/education_matchmaker/education_matching.py:129-168 | identical lists with a non-blank first item score the perfect value: 0.7 for education, 1.0 for the others |
| ListMatching.BlankRequirementsScoreZero | src/education_matchmaker/education_matching.py:144-145 | all-blank requirement items score 0.0 |
| ListMatching.BlankInputsScoreZero | src/education_matchmaker/education_matching.py:110-168 | a whitespace-only job text passes `setInputs` as one blank item, then scores 0.0, unless the embedding models raise (the blank item is still encoded) |
| ListMatching.BlankItemMatch | src/education_matchmaker/education_matching.py:129-168 | one blank requirement item scores 0.0 with models and candidates present, or fails with "Failed to make match: …" when the embedding models raise |
| ListMatching.TestEnsembleReduces | tests/unit_tests/test_designation_matchmaker.py:176-178 | [0.7, 0.8] reduces to 0.75, except education, which takes the maximum 0.8 |
| ListMatching.ListMatcher.constructor | src/tools_matchmaker/tools_matching.py:85-97 | the given names and limit, no inputs, an empty similarity object; models are bound from the start only for certification |
| ListMatching.ListMatcher.LoadModels | src/tools_matchmaker/tools_matching.py:99-106 | the outcome is `LoadOutcome`, and the models count as loaded after a success |
| ListMatching.ListMatcher.SetInputs | src/tools_matchmaker/tools_matching.py:108-116 | equals `SetInputsStep`: the resume list is stored before the job text is checked |
| ListMatching.ListMatcher.MakeMatch | src/tools_matchmaker/tools_matching.py:118-166 | equals `MatchStep` |
| ListMatching.ListMatcher.Finish | src/tools_matchmaker/tools_matching.py:163-166 | `getEnsembleScore` followed by the category's reduction |
| ListMatching.ListMatcher.GetSimilarityScore | src/tools_matchmaker/tools_matching.py:168-179 | equals `GetScoreStep` |
| ListMatching.ListMatcher.Reset | src/certification_matchmaker/certification_matching.py:170-175 | the similarity and inputs are cleared, and the models dropped except certification's shared ones |
| EducationMatchmaker.NewEducationMatching | src/education_matchmaker/education_matching.py:88-99 | names default to the configured ones, the limit is the configured one, and the state is fresh |
| SkillMatchmaker.NewSkillMatching | src/skill_matchmaker/skill_matching.py:63-71 | the given names and limit, with no default, and a fresh state |
| SkillMatchmaker.LimitOrDefault | src/skill_matchmaker/technical_skill_matching.py:37 | `None` falls back on the configured limit; any other value is kept |
| SkillMatchmaker.NewTechnicalSkillMatching | src/skill_matchmaker/technical_skill_matching.py:34-38 | no model names; the limit is the argument or the configured one |
| SkillMatchmaker.NewSoftSkillMatching | src/skill_matchmaker/soft_skill_matching.py:33-37 | no model names; the limit is the argument or the configured one |
| SkillMatchmaker.NamelessSkillMatcherFails | src/skill_matchmaker/skill_matching.py:73-75 | a technical or soft matcher can never load models, so `makeMatch` always fails with "Failed to load models: Model names cannot be empty." |
| ToolsMatchmaker.NewToolMatching | src/tools_matchmaker/tools_matching.py:85-97 | names default to the configured ones; the limit is the argument, with no default |
| CertificationMatchmaker.NewCertificationMatching | src/certification_matchmaker/certification_matching.py:85-91 | the shared models are bound from the start, and the limit is the argument |
| DesignationMatchmaker.NewDesignationMatching | src/designation_matchmaker/designation_matching.py:84-96 | names default to the configured ones; the limit is the argument, with no default |
| Experience.Pow10 | src/experience_matchmaker/experience_matching.py:92 | powers of ten are positive |
| Experience.DigitsEnd | src/experience_matchmaker/experience_matching.py:92 | `\d+` ends at the first non-digit, and everything before it is a digit |
| Experience.SpacesEnd | src/experience_matchmaker/experience_matching.py:94 | `\s*` ends at the first non-space |
| Experience.NumberAt | src/experience_matchmaker/experience_matching.py:92 | `\d+(?:\.\d+)?` read at a digit is non-negative and ends after at least that digit |
| Experience.MatchAt | src/experience_matchmaker/experience_matching.py:92-94 | a match starts at a digit, moves past it and yields a non-negative value; the single pattern matches at every digit |
| Experience.FindAllNonNegative | src/experience_matchmaker/experience_matching.py:100-116 | every value `findall` yields is non-negative |
| Experience.NoDigitsNoValues | src/experience_matchmaker/experience_matching.py:92-94 | a text without digits yields nothing |
| Experience.DigitYieldsSingle | src/experience_matchmaker/experience_matching.py:108-116 | a text with a digit at or after the start yields at least one single value |
| Experience.ApostropheAddsYears | src/experience_matchmaker/experience_matching.py:189-193 | the numeraliser reads sanitized text: "5'" escapes to "5&#x27;", from which the single pattern reads 5 and 27 |
| Experience.FindAll | src/experience_matchmaker/experience_matching.py:92-116 | `pattern.findall(text)` as the values it yields, resuming after each match; FindAllNonNegative, NoDigitsNoValues and DigitYieldsSingle are stated about it |
| Experience.Extracted | src/experience_matchmaker/experience_matching.py:100-120 | after extraction, the year list is never empty |
| Experience.ModesOrdered | src/experience_matchmaker/experience_matching.py:122-129 | on non-negative values, min ≤ avg ≤ max ≤ sum |
| Experience.ExtractedNonNegative | src/experience_matchmaker/experience_matching.py:100-120 | extraction appends only non-negative values |
| Experience.ReduceYearsOutcome | src/experience_matchmaker/experience_matching.py:122-131 | the four modes yield a non-negative figure; any other mode raises "Invalid mode…" |
| Experience.ReduceYears | src/experience_matchmaker/experience_matching.py:122-131 | the four modes and the "Invalid mode" error; ReduceYearsOutcome and ModesOrdered are stated about it |
| Experience.ExtractStep | src/experience_matchmaker/experience_matching.py:99-131 | `extractYears`: the values are appended before the mode is looked at; ExtractGrows, ExtractFresh, RereadAppendsAgain and RepeatedMatchDoublesResumeYears are stated about it |
| Experience.ExtractGrows | src/experience_matchmaker/experience_matching.py:99-131 | the old years are a prefix of the new; the list is non-empty and non-negative; the mode is kept; Ok iff the mode is known, with a non-negative figure |
| Experience.NoDigitsGiveZero | src/experience_matchmaker/experience_matching.py:119-120 | a fresh numeraliser reads a digit-free text as 0 |
| Experience.DigitsContribute | src/experience_matchmaker/experience_matching.py:108-116 | a text with a digit always appends something |
| Experience.RangeExampleNumbers | src/experience_matchmaker/experience_matching.py:94 | the two numbers of "3-5 years" are 3 and 5 |
| Experience.RangeReadsMidpoint | src/experience_matchmaker/experience_matching.py:100-106 | the range pattern reads "3-5 years" as 4 |
| Experience.SinglesReadBothEnds | src/experience_matchmaker/experience_matching.py:108-116 | the single pattern reads "3-5 years" as 3 and 5 |
| Experience.ExampleSum | src/experience_matchmaker/experience_matching.py:128-129 | [4, 3, 5] sums to 12 |
| Experience.ExtractFresh | src/experience_matchmaker/experience_matching.py:99-131 | a fresh numeraliser holds exactly what one text contributes, and reduces it by its mode |
| Experience.ExampleYears | src/experience_matchmaker/experience_matching.py:100-116 | the two patterns together read "3-5 years" as 4, 3 and 5 |
| Experience.RangeIsCountedTwice | src/experience_matchmaker/experience_matching.py:99-131 | "3-5 years" is read as 4, then 3 and 5: the average is 4 and the sum is 12 |
| Experience.PlusAddsHalfYear | src/experience_matchmaker/experience_matching.py:114-115 | "2+ yrs" is read as 2.5 |
| Experience.Numeralizer.constructor | src/experience_matchmaker/experience_matching.py:88-97 | no years, and the given mode |
| Experience.Numeralizer.Scan | src/experience_matchmaker/experience_matching.py:100-116 | the loop appends the values of one pattern's `findall` |
| Experience.Numeralizer.ExtractYears | src/experience_matchmaker/experience_matching.py:99-131 | equals `ExtractStep` |
| Experience.Numeralizer.GetYears | src/experience_matchmaker/experience_matching.py:133-136 | the years, or "No years extracted." when there are none |
| Experience.Numeralizer.Reset | src/experience_matchmaker/experience_matching.py:138-140 | no years and no mode |
| Experience.NewNumeralizer | src/experience_matchmaker/experience_matching.py:88-90 | a missing or empty mode raises "Mode cannot be None."; any other mode gives a fresh numeraliser |
| Experience.HardValue | src/experience_matchmaker/experience_matching.py:59-67 | scores in [0, 1] give a value in [0, 1]; a strong first score is never lowered; a weak second score is never raised; otherwise the value lies between the two; a perfect first score gives 1 |
| Experience.AverageScoreStep | src/experience_matchmaker/experience_matching.py:54-57 | `averageEnsemble`: the mean of the two scores, or ValueError "Model scores are not set." |
| Experience.HardScoreStep | src/experience_matchmaker/experience_matching.py:59-67 | `hardEnsemble`: HardValue of the two scores, or ValueError when one is missing |
| Experience.EnsembleScoreStep | src/experience_matchmaker/experience_matching.py:70-78 | `getEnsembleScore`: EnsembleScoreOutcome states when it fails and what it returns |
| Experience.EnsembleScoreOutcome | src/experience_matchmaker/experience_matching.py:70-78 | `getEnsembleScore` fails iff a score is missing and nothing is stored; a stored ensemble is returned as it is; a computed one lies in [0, 1] |
| Experience.ExperienceSimilarity.constructor | src/experience_matchmaker/experience_matching.py:39-42 | no scores |
| Experience.ExperienceSimilarity.SetModel1Score | src/experience_matchmaker/experience_matching.py:44-47 | stores the first score only |
| Experience.ExperienceSimilarity.SetModel2Score | src/experience_matchmaker/experience_matching.py:49-52 | stores the second score only |
| Experience.ExperienceSimilarity.AverageEnsemble | src/experience_matchmaker/experience_matching.py:54-57 | equals `AverageScoreStep` |
| Experience.ExperienceSimilarity.HardEnsemble | src/experience_matchmaker/experience_matching.py:59-67 | equals `HardScoreStep` |
| Experience.ExperienceSimilarity.GetEnsembleScore | src/experience_matchmaker/experience_matching.py:70-78 | equals `EnsembleScoreStep` |
| Experience.ExperienceSimilarity.Reset | src/experience_matchmaker/experience_matching.py:80-84 | no scores |
| Experience.ScaledScore | src/experience_matchmaker/experience_matching.py:205-206 | the scaled ensemble never exceeds 1, and lies in [0, 1] for a non-negative factor |
| Experience.SetInputsStep | src/experience_matchmaker/experience_matching.py:169-177 | `setInputs`: falsy input first, then non-strings, and both texts stored raw |
| Experience.NextFactor | src/experience_matchmaker/experience_matching.py:194-195 | the factor: resume years over job years when both are non-zero, else the previous value; NextFactorPositive and HalfTheYearsHalfTheScore are stated about it |
| Experience.NextFactorPositive | src/experience_matchmaker/experience_matching.py:194-195 | a positive factor stays positive when the years are non-negative |
| Experience.ComputeOutcome | src/experience_matchmaker/experience_matching.py:188-210 | the `try` body fails iff an input is over the limit (or the limit is missing) or the embedding models raise; a score lies in [0, 1] and is stored; consistency is kept; the year lists only grow |
| Experience.MatchOutcome | src/experience_matchmaker/experience_matching.py:179-210 | `makeMatch` fails iff the models cannot be loaded, an input is missing, an input is over the limit (or the limit is missing), or the embedding models raise; a score lies in [0, 1] and is stored; consistency is kept; the year lists only grow |
| Experience.EncodeFailureKeepsYears | src/experience_matchmaker/experience_matching.py:188-209 | an exception of the embedding models `e` gives "Failed to make match: " + e after both texts' years are appended and the factor updated, with the scores left as they were |
| Experience.ComputeStep | src/experience_matchmaker/experience_matching.py:188-210 | the `try` body of `makeMatch`: sanitize, extract the years, update the factor, encode, score and cap; failures wrapped as "Failed to make match: …", each keeping what was changed before it; MatchOutcome and EncodeFailureKeepsYears are stated about it |
| Experience.MatchStep | src/experience_matchmaker/experience_matching.py:179-210 | `makeMatch`: load when needed, refuse unset inputs, compute; MatchOutcome, EncodeFailureKeepsYears and ScoreAfterMatchAgrees are stated about it |
| Experience.GetScoreStep | src/experience_matchmaker/experience_matching.py:212-220 | `getSimilarityScore`; StoredScoreIsReturned, ScoreAfterMatchAgrees and ScoreRunsMakeMatch are stated about it |
| Experience.StoredScoreIsReturned | src/experience_matchmaker/experience_matching.py:212-220 | a stored ensemble score is returned as it is, without running makeMatch and without changing the matcher |
| Experience.ScoreAfterMatchAgrees | src/experience_matchmaker/experience_matching.py:210-220 | after a successful makeMatch, getSimilarityScore returns the same score and leaves the state as makeMatch left it |
| Experience.ScoreRunsMakeMatch | src/experience_matchmaker/experience_matching.py:212-217 | with no score stored, getSimilarityScore returns makeMatch's score and state, or its error wrapped as "Failed to get similarity score: …" |
| Experience.HalfTheYearsHalfTheScore | src/experience_matchmaker/experience_matching.py:192-206 | with 2 resume years, 4 job years and identical texts, the score is 0.5 |
| Experience.RepeatedMatchDoublesResumeYears | src/experience_matchmaker/experience_matching.py:192-193 | matching the same text with a digit again appends its values again: the "sum" numeraliser then reports twice its first figure, while the "avg" one reports the same figure |
| Experience.RereadAppendsAgain | src/experience_matchmaker/experience_matching.py:99-120 | reading the same text with a digit twice on a fresh numeraliser appends its values twice |
| Experience.ExperienceMatching.constructor | src/experience_matchmaker/experience_matching.py:144-158 | names default to the configured ones; a "sum" numeraliser for the resume and an "avg" one for the job; factor 1 |
| Experience.ExperienceMatching.LoadModels | src/experience_matchmaker/experience_matching.py:160-167 | the outcome is `LoadModelsOutcome`; the models count as loaded after a success |
| Experience.ExperienceMatching.SetInputs | src/experience_matchmaker/experience_matching.py:169-177 | equals `SetInputsStep`: both texts are stored raw, with no sanitizing |
| Experience.ExperienceMatching.MakeMatch | src/experience_matchmaker/experience_matching.py:179-210 | equals `MatchStep` |
| Experience.ExperienceMatching.Compute | src/experience_matchmaker/experience_matching.py:188-210 | equals `ComputeStep` |
| Experience.ExperienceMatching.Score | src/experience_matchmaker/experience_matching.py:203-206 | stores both scores, and the ensemble scaled by the factor and capped at 1 |
| Experience.ExperienceMatching.GetSimilarityScore | src/experience_matchmaker/experience_matching.py:212-220 | equals GetScoreStep: a stored score is returned unchanged (StoredScoreIsReturned), otherwise makeMatch runs and its error is wrapped as "Failed to get similarity score: …" (ScoreRunsMakeMatch, ScoreAfterMatchAgrees) |
| Experience.ExperienceMatching.Reset | src/experience_matchmaker/experience_matching.py:222-233 | clears the scores, the models and the inputs; the numeralisers and the factor are kept |
| Engine.WithListState | src/matchmaker_engine/matching_engine.py:145 | replacing one key's matcher state leaves every other matcher, both documents and the report unchanged |
| Engine.Entry | src/matchmaker_engine/matching_engine.py:143-144 | `document.get(key, [])`; MissingEntryScoresZero states that a missing entry scores 0.0 |
| Engine.Degrade | src/matchmaker_engine/matching_engine.py:147-150 | a matcher's result, or 0.0 for any exception |
| Engine.RunListStep | src/matchmaker_engine/matching_engine.py:141-150 | `setInputs` then `makeMatch` on a list matcher, failures scored 0.0; RunListStepInUnit is stated about it |
| Engine.RunExperienceStep | src/matchmaker_engine/matching_engine.py:141-150 | the same for the experience matcher; RunExperienceStepInUnit is stated about it |
| Engine.RunStep | src/matchmaker_engine/matching_engine.py:141-150 | `_run_matcher(key)`; RunStepFrame and RunStepInUnit are stated about it |
| Engine.AfterKey | src/matchmaker_engine/matching_engine.py:159-162 | one round of the `getMatch` loop: the key's score written to that key only; AfterKeyWellFormed and AfterKeySilent are stated about it |
| Engine.RunFrom | src/matchmaker_engine/matching_engine.py:158-162 | the loop over the seven keys from the i-th on; RunFromWellFormed and RunFromSilent are stated about it |
| Engine.GetMatchStep | src/matchmaker_engine/matching_engine.py:152-167 | `getMatch`: the report unchanged unless both documents are present; GetMatchOutcome is stated about it |
| Engine.RunStepFrame | src/matchmaker_engine/matching_engine.py:141-150 | running one key touches only that key's matcher |
| Engine.MissingEntryScoresZero | src/matchmaker_engine/matching_engine.py:143-146 | a key missing from either document is passed `[]`, which scores 0.0 and changes nothing |
| Engine.NoLimitScoresZero | src/matchmaker_engine/matching_engine.py:136-138 | a matcher built without a limit always scores 0.0 |
| Engine.NamelessSkillScoresZero | src/matchmaker_engine/matching_engine.py:134-135 | the skill matchers have no model names, so they always score 0.0 and never load models |
| Engine.RunListStepInUnit | src/matchmaker_engine/matching_engine.py:141-150 | a list key's score lies in [0, 1], and its matcher stays coherent |
| Engine.RunExperienceStepInUnit | src/matchmaker_engine/matching_engine.py:141-150 | the experience score lies in [0, 1], and the matcher stays consistent |
| Engine.RunStepInUnit | src/matchmaker_engine/matching_engine.py:141-150 | any key's score lies in [0, 1], with the engine kept coherent |
| Engine.AfterKeyWellFormed | src/matchmaker_engine/matching_engine.py:159-162 | one round of the loop keeps every matcher coherent and the report over the seven keys with values in [0, 1], and leaves both documents alone |
| Engine.RunFromWellFormed | src/matchmaker_engine/matching_engine.py:158-162 | the loop keeps the report keyed by exactly the seven keys, with values in [0, 1] |
| Engine.GetMatchOutcome | src/matchmaker_engine/matching_engine.py:152-167 | `getMatch` returns a report over exactly the seven keys with values in [0, 1]; with either document missing or empty, it changes nothing |
| Engine.AfterKeySilent | src/matchmaker_engine/matching_engine.py:159-162 | with default setups, one round keeps the five unscorable keys at 0.0 |
| Engine.RunFromSilent | src/matchmaker_engine/matching_engine.py:158-162 | the same for the whole loop |
| Engine.DefaultEngineScoresOnlyEducationAndExperience | src/matchmaker_engine/matching_engine.py:131-167 | a default engine reports 0.0 for technical skill, soft skill, tool, certification and designation through any number of `getMatch` calls |
| Engine.RunListMatcher | src/matchmaker_engine/matching_engine.py:145-150 | `setInputs` then `makeMatch` on a list matcher, with a failure giving 0.0, equals `RunListStep` |
| Engine.NewListMatchers | src/matchmaker_engine/matching_engine.py:132-138 | six fresh, distinct list matchers with their categories, default setups and initial states |
| Engine.MatchingEngine.constructor | src/matchmaker_engine/matching_engine.py:120-139 | no documents, a report of seven zero keys and fresh matchers; the new engine is coherent, its report well-formed and the five unscorable keys at 0.0, so it meets the requirements of GetMatchOutcome |
| Engine.MatchingEngine.RunMatcher | src/matchmaker_engine/matching_engine.py:141-150 | equals `RunStep` |
| Engine.MatchingEngine.RunAndRecord | src/matchmaker_engine/matching_engine.py:161-162 | runs one key and writes its score to that key only |
| Engine.MatchingEngine.RunAll | src/matchmaker_engine/matching_engine.py:158-162 | the loop over the seven keys equals `RunFrom` |
| Engine.MatchingEngine.GetMatch | src/matchmaker_engine/matching_engine.py:152-167 | equals `GetMatchStep` |
| JobScraper.CollapseNewlinesSpec | src/jd_scraper/jd_scraper.py:43 | collapsing leaves no two newlines together, keeps every other character in order and both end characters, and leaves a text without runs unchanged |
| JobScraper.CollapseNewlines | src/jd_scraper/jd_scraper.py:43 | `re.sub(r'\n+', '\n', …)`; CollapseNewlinesSpec states that no run is left and every other character is kept in order |
| JobScraper.CutFirst | src/jd_scraper/jd_scraper.py:53-56 | the phrase loop: cut at the first phrase in list order that occurs; CutAtFirstFound and NoPhraseNoCut are stated about it |
| JobScraper.PostProcess | src/jd_scraper/jd_scraper.py:42-58 | `postProcessJDText`; PostProcessNoDoubleNewline, UncutPage and SeniorityCutExample are stated about it |
| JobScraper.LongEnough | src/jd_scraper/jd_scraper.py:75 | `text and len(text) > 200`; AcceptExtracted keeps the old description unless it holds |
| JobScraper.PieceKeepsNoDoubleNewline | src/jd_scraper/jd_scraper.py:55 | a piece of a text without newline runs has none |
| JobScraper.PieceContainment | src/jd_scraper/jd_scraper.py:55 | a phrase found in a piece of a text is found in the text at the matching place |
| JobScraper.NoPhraseNoCut | src/jd_scraper/jd_scraper.py:53-58 | when no phrase occurs, the text is returned as it is |
| JobScraper.CutAtFirstFound | src/jd_scraper/jd_scraper.py:53-56 | when phrase k is the first in list order to occur, the result is the stripped text before its first occurrence, and that phrase no longer occurs |
| JobScraper.CutKeepsNoDoubleNewline | src/jd_scraper/jd_scraper.py:53-56 | cutting keeps a text free of newline runs |
| JobScraper.PostProcessNoDoubleNewline | src/jd_scraper/jd_scraper.py:42-58 | the processed text never holds two newlines in a row |
| JobScraper.UncutPage | src/jd_scraper/jd_scraper.py:43-58 | with no cutoff phrase, the result is the stripped, collapsed text |
| JobScraper.SeniorityCutExample | tests/unit_tests/test_jd_scraper.py:55-58 | "Sample Job Description\n\nSeniority level: Senior\n\nReferrals increase your chances" becomes "Sample Job Description" |
| JobScraper.ExampleCollapse | src/jd_scraper/jd_scraper.py:43 | the example's double newlines become single ones |
| JobScraper.ExampleCollapseTail | src/jd_scraper/jd_scraper.py:43 | the same, for the example's last two lines |
| JobScraper.NoNewlineNoDoubleNewline | src/jd_scraper/jd_scraper.py:43 | a text without newlines has no newline run |
| JobScraper.CollapseAround | src/jd_scraper/jd_scraper.py:43 | a double newline between a line and the rest becomes one |
| JobScraper.ExampleFind | src/jd_scraper/jd_scraper.py:53-55 | the example is cut at "Seniority level", right after its first line |
| JobScraper.ExampleStrip | src/jd_scraper/jd_scraper.py:55 | the first line followed by a newline strips to the line |
| JobScraper.JobDescriptionScraper.constructor | src/jd_scraper/jd_scraper.py:20-35 | no URL, an empty description and no driver |
| JobScraper.JobDescriptionScraper.PostProcessJDText | src/jd_scraper/jd_scraper.py:42-58 | the loop over the cutoff phrases computes `PostProcess`, and the result has no newline run |
| JobScraper.JobDescriptionScraper.AcceptExtracted | src/jd_scraper/jd_scraper.py:74-76 | the processed text replaces the description only when the extracted text is longer than 200 characters; otherwise it is kept |
| JobScraper.JobDescriptionScraper.ExtractJobDescription | src/jd_scraper/jd_scraper.py:60-80 | a held description is returned at once, with the driver left open; no URL raises ValueError; a failed load raises RuntimeError; otherwise it always succeeds, closes the driver and returns (and stores) the post-processed text when it is longer than 200 characters, else "" |
| JobScraper.JobDescriptionScraper.ResetScraper | src/jd_scraper/jd_scraper.py:82-87 | no URL, an empty description and no driver |

## Left out

- Embedding models and `cosine_similarity`: these are library calls. They are the `Cosine` parameters `sim1`/`sim2`, bounded in [-1, 1], which is the mathematical range of a cosine. Model loading is the `loaderError` parameter. An exception of `encode` is the `encodeError` parameter; any `encode` call may be the one that raises, since nothing is stored between the first `encode` and the last.
- Floating point: scores are reals. Rounding and the `float()` of a regex match are exact here.
- Python type checks (`isinstance`): `setModel*Score` and the list `setInputs` accept only the types the callers pass. The "must be a string" branches are modelled for `None` and `[]`. A non-empty list argument cannot be represented in `PyText`.
- "Ensemble score is not a valid list/number": unreachable, since the stored value always has the right type.
- The certification matcher's precomputed resume embeddings (src/certification_matchmaker/certification_matching.py:113-134): the oracle is a pure function, so caching its result changes nothing observable. The candidate is embedded stripped; only the blank test and the consumption key use the raw text, as in the model.
- The `del`/`gc.collect()` calls in `reset`: memory management only.
- Configuration values (`config.MODEL_NAME_1`, `MAX_INPUT_LENGTH`, …) are parameters (`PackageConfig`). The real values live in config files that are not part of this model. A `None` model name is the empty string.
- `SecureKeyManager` (src/utils/security.py:10-28): encryption is a library call, so it is not part of this model.
- The thread pool of `getMatch` is a sequential loop over the seven keys in report order: the tasks share no state, and each writes only its own key. The timing and the print are dropped.
- `MatchingEngine` builds a second, unused set of matchers (src/matchmaker_engine/matching_engine.py:113-119). They are not modelled, since nothing reads them.
- `Experience.MatchAt`: ASCII digits stand for `\d`, and `Text.IsSpace` stands for `\s`. The optional unit word is matched but never changes a value, so it is not modelled. The `Invalid number format` branch is unreachable, since every matched number parses.
- ScoreStep: takes embedding models that answer. Their exception (`encodeError`) is handled by `ListMatching.MatchStep` before `ScoreStep` runs. The source's `try` ends the same way: every category stores nothing until its last `encode` is done.
- `Experience.ExperienceMatching.MakeMatch`: `hardEnsemble` inside the `try` cannot raise (both scores are set just before); the `Failed to make match` wrapper is reached by a sanitizing failure and by an `encode` exception (`encodeError`).
- `JobScraper.JobDescriptionScraper.ExtractJobDescription`: the browser, the page fetch and `trafilatura.extract` are the `loadError` and `extracted` parameters; `driverOpen` says whether a live browser driver is held. The source quits the driver after a successful extraction but leaves it in `self.driver`, so `resetScraper` quits it a second time; the model does not keep that second quit.
- The scraper's `setInputs` and its request headers and browser options: a type check and constants, with nothing to prove.
- `JobScraper.CollapseNewlines` models `re.sub(r'\n+', '\n', …)` on `\n` only. A `\r\n` line ending is not a run.
- The agents, OCR, the API routes and the database are outside this model.
