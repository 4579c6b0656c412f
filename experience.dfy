/** The experience matcher: a numeraliser that reads year quantities out of
    free text, a similarity object holding one score per model, and the
    matcher that scales the ensembled similarity by the ratio of the
    resume's years to the job's. */
module Experience {

  import opened Wrappers
  import opened Text
  import opened Scoring
  import opened Security
  import opened Selection
  import opened Ensemble
  import ListMatching

  // ---------------------------------------------------------------------------
  // Scanning for year quantities
  // ---------------------------------------------------------------------------

  /** `\d`, restricted to the ASCII digits. */
  predicate IsDigit(c: char)
  {
    '0' <= c <= '9'
  }

  predicate AllDigits(s: string)
  {
    forall k :: 0 <= k < |s| ==> IsDigit(s[k])
  }

  /** The value of a string of decimal digits, as `float` reads it. */
  function DigitsValue(s: string): nat
    requires AllDigits(s)
  {
    if s == [] then 0
    else DigitsValue(s[..|s| - 1]) * 10 + (s[|s| - 1] as int - '0' as int)
  }

  function Pow10(n: nat): (r: nat)
    ensures r >= 1
  {
    if n == 0 then 1 else 10 * Pow10(n - 1)
  }

  /** The end of the longest run of digits starting at `i`. */
  function DigitsEnd(s: string, i: nat): (j: nat)
    requires i <= |s|
    ensures i <= j <= |s| && AllDigits(s[i..j])
    ensures j == |s| || !IsDigit(s[j])
    decreases |s| - i
  {
    if i < |s| && IsDigit(s[i]) then
      var j := DigitsEnd(s, i + 1);
      assert s[i..j] == [s[i]] + s[i + 1..j];
      j
    else i
  }

  /** The end of the longest run of whitespace (`\s*`) starting at `i`. */
  function SpacesEnd(s: string, i: nat): (j: nat)
    requires i <= |s|
    ensures i <= j <= |s|
    ensures j == |s| || !IsSpace(s[j])
    decreases |s| - i
  {
    if i < |s| && IsSpace(s[i]) then SpacesEnd(s, i + 1) else i
  }

  /** A quantity read from the text and the position just after it. */
  datatype Token = Token(value: real, end: nat)

  /** `\d+(?:\.\d+)?` read greedily at `i`. A `.` joins the number only
      when a digit follows it. */
  function NumberAt(s: string, i: nat): (t: Token)
    requires i < |s| && IsDigit(s[i])
    ensures i < t.end <= |s| && t.value >= 0.0
  {
    var j := DigitsEnd(s, i);
    var whole := DigitsValue(s[i..j]) as real;
    if j + 1 < |s| && s[j] == '.' && IsDigit(s[j + 1]) then
      var k := DigitsEnd(s, j + 1);
      var fraction := (DigitsValue(s[j + 1..k]) as real) / (Pow10(k - j - 1) as real);
      assert fraction >= 0.0;
      Token(whole + fraction, k)
    else Token(whole, j)
  }

  /** The two patterns of the numeraliser. */
  datatype Pattern =
    | RangePattern   // `a \s* - \s* b`, worth the midpoint of `a` and `b`
    | SinglePattern  // `a`, worth `a`, or `a + 0.5` when a `+` follows at once

  /** The pattern tried at position `i`. Both patterns may go on to take
      whitespace and a unit word (`years`, `yrs`, `year`); neither holds a
      digit, so no later match can start there and the token ends right
      after the last number or `+`. The single pattern matches at every
      digit; the range pattern can fail at a digit, and the scan then goes
      on inside the same number. */
  function MatchAt(p: Pattern, s: string, i: nat): (m: Option<Token>)
    requires i <= |s|
    ensures m.Some? ==> i < m.value.end <= |s| && m.value.value >= 0.0
    ensures p == SinglePattern ==> (m.Some? <==> i < |s| && IsDigit(s[i]))
    ensures m.Some? ==> i < |s| && IsDigit(s[i])
  {
    if i < |s| && IsDigit(s[i]) then
      var a := NumberAt(s, i);
      match p
      case SinglePattern =>
        if a.end < |s| && s[a.end] == '+' then Some(Token(a.value + 0.5, a.end + 1)) else Some(a)
      case RangePattern =>
        var h := SpacesEnd(s, a.end);
        if h < |s| && s[h] == '-' then
          var t := SpacesEnd(s, h + 1);
          if t < |s| && IsDigit(s[t]) then
            var b := NumberAt(s, t);
            Some(Token((a.value + b.value) / 2.0, b.end))
          else None
        else None
    else None
  }

  /** `pattern.findall(text)` from position `i` on, as the values it
      yields: after a match the search resumes at its end, after a miss one
      character further. */
  function FindAll(p: Pattern, s: string, i: nat): seq<real>
    requires i <= |s|
    decreases |s| - i
  {
    if i == |s| then []
    else
      match MatchAt(p, s, i)
      case Some(t) => [t.value] + FindAll(p, s, t.end)
      case None => FindAll(p, s, i + 1)
  }

  /** Every value the scan yields is a non-negative quantity. */
  lemma {:induction false} FindAllNonNegative(p: Pattern, s: string, i: nat)
    requires i <= |s|
    ensures forall k :: 0 <= k < |FindAll(p, s, i)| ==> FindAll(p, s, i)[k] >= 0.0
    decreases |s| - i
  {
    if i < |s| {
      match MatchAt(p, s, i)
      case Some(t) => FindAllNonNegative(p, s, t.end);
      case None => FindAllNonNegative(p, s, i + 1);
    }
  }

  /** Text with no digit yields nothing. */
  lemma {:induction false} NoDigitsNoValues(p: Pattern, s: string, i: nat)
    requires i <= |s|
    requires forall k :: i <= k < |s| ==> !IsDigit(s[k])
    ensures FindAll(p, s, i) == []
    decreases |s| - i
  {
    if i < |s| {
      NoDigitsNoValues(p, s, i + 1);
    }
  }

  /** The single pattern matches at every digit, so it yields at least one
      value from a digit at or after the start. */
  lemma {:induction false} DigitYieldsSingle(s: string, i: nat, k: nat)
    requires i <= k < |s| && IsDigit(s[k])
    ensures FindAll(SinglePattern, s, i) != []
    decreases |s| - i
  {
    if !IsDigit(s[i]) {
      DigitYieldsSingle(s, i + 1, k);
    }
  }

  /** The numeraliser reads sanitised text, and `html.escape` writes an
      apostrophe as `&#x27;`: "5'" is read as 5 years and 27 more. */
  lemma ApostropheAddsYears()
    ensures HtmlEscape("5'") == "5&#x27;"
    ensures FindAll(SinglePattern, "5&#x27;", 0) == [5.0, 27.0]
  {
    EscapeApostrophe();
    var s := "5&#x27;";
    assert s[0..1] == "5";
    assert DigitsValue("5") == 5;
    assert MatchAt(SinglePattern, s, 0) == Some(Token(5.0, 1));
    assert FindAll(SinglePattern, s, 1) == FindAll(SinglePattern, s, 4) by {
      assert !IsDigit(s[1]) && !IsDigit(s[2]) && !IsDigit(s[3]);
    }
    assert s[4..6] == "27";
    assert DigitsValue("27") == 27;
    assert MatchAt(SinglePattern, s, 4) == Some(Token(27.0, 6));
    assert FindAll(SinglePattern, s, 6) == [] by { NoDigitsNoValues(SinglePattern, s, 6); }
  }

  /** The escape of "5'". */
  lemma EscapeApostrophe()
    ensures HtmlEscape("5'") == "5&#x27;"
  {
    assert "5'" == ['5'] + ['\''];
    EscapeAppend(['5'], ['\'']);
  }

  // ---------------------------------------------------------------------------
  // The numeraliser, as values
  // ---------------------------------------------------------------------------

  const ModeMissingMessage: string := "Mode cannot be None."
  const InvalidModeMessage: string := "Invalid mode. Use 'min' / 'max' / 'avg' / 'sum."
  const NoYearsMessage: string := "No years extracted."

  /** The fields of an `ExperienceNumeralizer`; `None` is Python's `None`. */
  datatype NumeralizerState = NumeralizerState(years: seq<real>, mode: Option<string>)

  /** What one `extractYears(text)` appends to `years`: the range values,
      then the single values, or a lone 0 when the whole list is still
      empty. */
  function Extracted(years: seq<real>, text: string): (r: seq<real>)
    ensures |years + r| > 0
  {
    var found := FindAll(RangePattern, text, 0) + FindAll(SinglePattern, text, 0);
    if years + found == [] then [0.0] else found
  }

  /** The reduction of the collected values by mode. */
  function ReduceYears(mode: Option<string>, years: seq<real>): Result<real>
    requires |years| > 0
  {
    if mode == Some("max") then Ok(MaxOf(years))
    else if mode == Some("avg") then Ok(Mean(years))
    else if mode == Some("min") then Ok(MinOf(years))
    else if mode == Some("sum") then Ok(Sum(years))
    else Err(ValueError(InvalidModeMessage))
  }

  /** `extractYears(text)`: the values are appended before the mode is
      looked at, so an invalid mode still grows the list. */
  function ExtractStep(ns: NumeralizerState, text: string): (NumeralizerState, Result<real>)
  {
    var years := ns.years + Extracted(ns.years, text);
    (ns.(years := years), ReduceYears(ns.mode, years))
  }

  predicate NonNegative(s: seq<real>)
  {
    forall k :: 0 <= k < |s| ==> s[k] >= 0.0
  }

  /** On non-negative values the four modes are ordered: min, average,
      maximum, sum. */
  lemma ModesOrdered(years: seq<real>)
    requires |years| > 0 && NonNegative(years)
    ensures MinOf(years) <= Mean(years) <= MaxOf(years) <= Sum(years)
  {
    MeanBetweenMinAndMax(years);
    var k :| 0 <= k < |years| && years[k] == MaxOf(years);
    SumDominates(years, k);
  }

  /** Extraction adds only non-negative values. */
  lemma ExtractedNonNegative(years: seq<real>, text: string)
    ensures NonNegative(Extracted(years, text))
  {
    FindAllNonNegative(RangePattern, text, 0);
    FindAllNonNegative(SinglePattern, text, 0);
  }

  /** A recognised mode yields a non-negative figure from non-negative
      values; any other mode, `None` included, is refused. */
  lemma ReduceYearsOutcome(mode: Option<string>, years: seq<real>)
    requires |years| > 0 && NonNegative(years)
    ensures var r := ReduceYears(mode, years);
      (r.Ok? <==> mode in {Some("max"), Some("avg"), Some("min"), Some("sum")})
      && (r.Ok? ==> r.value >= 0.0)
      && (r.Err? ==> r.error == ValueError(InvalidModeMessage))
  {
    ModesOrdered(years);
  }

  /** Extraction keeps the earlier values as a prefix, leaves the list
      non-empty and non-negative, and keeps the mode. */
  lemma ExtractGrows(ns: NumeralizerState, text: string)
    requires NonNegative(ns.years)
    ensures var (next, r) := ExtractStep(ns, text);
      ns.years <= next.years && |next.years| > 0 && NonNegative(next.years)
      && next.mode == ns.mode
      && (r.Ok? <==> ns.mode in {Some("max"), Some("avg"), Some("min"), Some("sum")})
      && (r.Ok? ==> r.value >= 0.0)
  {
    var added := Extracted(ns.years, text);
    ExtractedNonNegative(ns.years, text);
    var years := ns.years + added;
    assert NonNegative(years) by {
      forall k | 0 <= k < |years| ensures years[k] >= 0.0 {
        if k >= |ns.years| {
          assert years[k] == added[k - |ns.years|];
        }
      }
    }
    ReduceYearsOutcome(ns.mode, years);
  }

  /** A text without digits contributes nothing, so a fresh numeraliser
      reports 0 whatever its (valid) mode. */
  lemma NoDigitsGiveZero(mode: string, text: string)
    requires mode in {"max", "avg", "min", "sum"}
    requires forall k :: 0 <= k < |text| ==> !IsDigit(text[k])
    ensures ExtractStep(NumeralizerState([], Some(mode)), text)
         == (NumeralizerState([0.0], Some(mode)), Ok(0.0))
  {
    NoDigitsNoValues(RangePattern, text, 0);
    NoDigitsNoValues(SinglePattern, text, 0);
    var zero: seq<real> := [0.0];
    assert Extracted([], text) == zero;
    assert [] + zero == zero;
    assert zero[..0] == [];
    assert Sum(zero) == 0.0 && Mean(zero) == 0.0 && MaxOf(zero) == 0.0 && MinOf(zero) == 0.0;
    assert ReduceYears(Some(mode), zero) == Ok(0.0);
  }

  /** A text holding a digit always contributes something. */
  lemma DigitsContribute(ns: NumeralizerState, text: string, k: nat)
    requires k < |text| && IsDigit(text[k])
    ensures |ExtractStep(ns, text).0.years| > |ns.years|
  {
    DigitYieldsSingle(text, 0, k);
  }

  /** The two numbers of `3-5 years`. */
  lemma RangeExampleNumbers()
    ensures NumberAt("3-5 years", 0) == Token(3.0, 1)
    ensures NumberAt("3-5 years", 2) == Token(5.0, 3)
  {
    var s := "3-5 years";
    assert DigitsEnd(s, 1) == 1;
    assert DigitsEnd(s, 0) == 1;
    assert DigitsEnd(s, 3) == 3;
    assert DigitsEnd(s, 2) == 3;
    assert s[0..1] == "3" && "3"[..0] == [];
    assert s[2..3] == "5" && "5"[..0] == [];
    assert DigitsValue("3") == 3 && DigitsValue("5") == 5;
  }

  /** The range pattern reads `3-5 years` as its midpoint, 4. */
  lemma RangeReadsMidpoint()
    ensures FindAll(RangePattern, "3-5 years", 0) == [4.0]
  {
    var s := "3-5 years";
    RangeExampleNumbers();
    assert SpacesEnd(s, 1) == 1;
    assert SpacesEnd(s, 2) == 2;
    assert MatchAt(RangePattern, s, 0) == Some(Token(4.0, 3));
    assert FindAll(RangePattern, s, 3) == [] by { NoDigitsNoValues(RangePattern, s, 3); }
  }

  /** The single pattern reads both ends of `3-5 years`, 3 and 5. */
  lemma SinglesReadBothEnds()
    ensures FindAll(SinglePattern, "3-5 years", 0) == [3.0, 5.0]
  {
    var s := "3-5 years";
    RangeExampleNumbers();
    assert MatchAt(SinglePattern, s, 0) == Some(Token(3.0, 1));
    assert MatchAt(SinglePattern, s, 1) == None;
    assert MatchAt(SinglePattern, s, 2) == Some(Token(5.0, 3));
    assert FindAll(SinglePattern, s, 3) == [] by { NoDigitsNoValues(SinglePattern, s, 3); }
    assert FindAll(SinglePattern, s, 1) == FindAll(SinglePattern, s, 2) == [5.0];
  }

  lemma ExampleSum(years: seq<real>)
    requires years == [4.0, 3.0, 5.0]
    ensures Sum(years) == 12.0
  {
    var one: seq<real> := [4.0];
    var two: seq<real> := [4.0, 3.0];
    assert one[..0] == [] && two[..1] == one && years[..2] == two;
    assert Sum(one) == 4.0;
    assert Sum(two) == 7.0;
  }

  /** A fresh numeraliser keeps what one text contributes and reduces it. */
  lemma ExtractFresh(mode: Option<string>, text: string, years: seq<real>)
    requires Extracted([], text) == years
    ensures |years| > 0
    ensures ExtractStep(NumeralizerState([], mode), text)
         == (NumeralizerState(years, mode), ReduceYears(mode, years))
  {
    assert [] + years == years;
  }

  /** So a fresh averaging numeraliser reads `3-5 years` as 4 and a fresh
      summing one as 12: the range is counted twice over. */
  lemma RangeIsCountedTwice(text: string)
    requires text == "3-5 years"
    ensures ExtractStep(NumeralizerState([], Some("avg")), text)
         == (NumeralizerState([4.0, 3.0, 5.0], Some("avg")), Ok(4.0))
    ensures ExtractStep(NumeralizerState([], Some("sum")), text).1 == Ok(12.0)
  {
    var years: seq<real> := [4.0, 3.0, 5.0];
    ExampleYears();
    ExampleSum(years);
    ExtractFresh(Some("avg"), text, years);
    ExtractFresh(Some("sum"), text, years);
  }

  /** Both patterns together read `3-5 years` as 4, 3 and 5. */
  lemma ExampleYears()
    ensures Extracted([], "3-5 years") == [4.0, 3.0, 5.0]
  {
    RangeReadsMidpoint();
    SinglesReadBothEnds();
    assert [4.0] + [3.0, 5.0] == [4.0, 3.0, 5.0];
  }

  /** A `+` straight after a number adds half a year. */
  lemma PlusAddsHalfYear()
    ensures FindAll(SinglePattern, "2+ yrs", 0) == [2.5]
    ensures FindAll(RangePattern, "2+ yrs", 0) == []
  {
    var s := "2+ yrs";
    PlusToken();
    assert FindAll(SinglePattern, s, 2) == [] by { NoDigitsNoValues(SinglePattern, s, 2); }
    PlusIsNoRange();
  }

  /** The single pattern at the start of "2+ yrs". */
  lemma PlusToken()
    ensures MatchAt(SinglePattern, "2+ yrs", 0) == Some(Token(2.5, 2))
  {
    var s := "2+ yrs";
    assert DigitsValue("2") == 2;
    assert s[0..1] == "2";
  }

  /** "2+ yrs" holds no range. */
  lemma PlusIsNoRange()
    ensures FindAll(RangePattern, "2+ yrs", 0) == []
  {
    var s := "2+ yrs";
    assert FindAll(RangePattern, s, 1) == [] by { NoDigitsNoValues(RangePattern, s, 1); }
  }

  // ---------------------------------------------------------------------------
  // The numeraliser
  // ---------------------------------------------------------------------------

  class Numeralizer {
    var years: seq<real>
    var mode: Option<string>

    function State(): NumeralizerState
      reads this
    {
      NumeralizerState(years, mode)
    }

    constructor(mode: string)
      ensures State() == NumeralizerState([], Some(mode))
    {
      years := [];
      this.mode := Some(mode);
    }

    /** One pattern's `findall` and the loop that appends its values. */
    method Scan(p: Pattern, text: string)
      modifies this
      ensures years == old(years) + FindAll(p, text, 0) && mode == old(mode)
    {
      var i := 0;
      while i < |text|
        invariant i <= |text|
        invariant years + FindAll(p, text, i) == old(years) + FindAll(p, text, 0)
        invariant mode == old(mode)
        decreases |text| - i
      {
        var m := MatchAt(p, text, i);
        if m.Some? {
          ghost var rest := FindAll(p, text, m.value.end);
          assert FindAll(p, text, i) == [m.value.value] + rest;
          assert years + ([m.value.value] + rest) == (years + [m.value.value]) + rest;
          years := years + [m.value.value];
          i := m.value.end;
        } else {
          assert FindAll(p, text, i) == FindAll(p, text, i + 1);
          i := i + 1;
        }
      }
    }

    method ExtractYears(text: string) returns (r: Result<real>)
      modifies this
      ensures (State(), r) == ExtractStep(old(State()), text)
    {
      ghost var found := FindAll(RangePattern, text, 0) + FindAll(SinglePattern, text, 0);
      Scan(RangePattern, text);
      Scan(SinglePattern, text);
      assert years == old(years) + found;
      if years == [] {
        years := [0.0];
      }
      assert years == old(years) + Extracted(old(years), text);
      if mode == Some("max") {
        r := Ok(MaxOf(years));
      } else if mode == Some("avg") {
        r := Ok(Mean(years));
      } else if mode == Some("min") {
        r := Ok(MinOf(years));
      } else if mode == Some("sum") {
        r := Ok(Sum(years));
      } else {
        r := Err(ValueError(InvalidModeMessage));
      }
    }

    method GetYears() returns (r: Result<seq<real>>)
      ensures r.Ok? <==> years != []
      ensures r.Ok? ==> r.value == years
      ensures r.Err? ==> r.error == ValueError(NoYearsMessage)
    {
      if years == [] {
        return Err(ValueError(NoYearsMessage));
      }
      return Ok(years);
    }

    method Reset()
      modifies this
      ensures State() == NumeralizerState([], None)
    {
      years := [];
      mode := None;
    }
  }

  /** `ExperienceNumeralizer(mode)`: a missing or empty mode is refused. */
  method NewNumeralizer(mode: Option<string>) returns (r: Result<Numeralizer>)
    ensures r.Err? <==> mode.None? || mode.value == ""
    ensures r.Err? ==> r.error == ValueError(ModeMissingMessage)
    ensures r.Ok? ==> fresh(r.value) && r.value.State() == NumeralizerState([], mode)
  {
    if mode.None? || mode.value == "" {
      return Err(ValueError(ModeMissingMessage));
    }
    var n := new Numeralizer(mode.value);
    return Ok(n);
  }

  // ---------------------------------------------------------------------------
  // The similarity object, as values
  // ---------------------------------------------------------------------------

  /** The fields of an `ExperienceSimilarity`: one score per model. */
  datatype ScoreState = ScoreState(model1Score: Option<real>, model2Score: Option<real>, ensembleScore: Option<real>)

  /** The hard ensemble of two scores: a strong first score is boosted by a
      fifth, else a weak second score is damped by a fifth, else the two are
      averaged. */
  function HardValue(m1: real, m2: real): (r: real)
    ensures InUnit(m1) && InUnit(m2) ==> InUnit(r)
    ensures 0.5 < m1 <= 1.0 ==> m1 <= r
    ensures m1 <= 0.5 && 0.0 <= m2 < 0.5 ==> r <= m2
    ensures m1 <= 0.5 && 0.5 <= m2 ==> m1 <= r <= m2
    ensures m1 == 1.0 ==> r == 1.0
  {
    if m1 > 0.5 then Min1(m1 * 1.2)
    else if m2 < 0.5 then Min1(m2 * 0.8)
    else (m1 + m2) / 2.0
  }

  function AverageScoreStep(st: ScoreState): (ScoreState, Result<()>)
  {
    if st.model1Score.None? || st.model2Score.None? then (st, Err(ValueError(NotSetMessage)))
    else (st.(ensembleScore := Some((st.model1Score.value + st.model2Score.value) / 2.0)), Ok(()))
  }

  function HardScoreStep(st: ScoreState): (ScoreState, Result<()>)
  {
    if st.model1Score.None? || st.model2Score.None? then (st, Err(ValueError(NotSetMessage)))
    else (st.(ensembleScore := Some(HardValue(st.model1Score.value, st.model2Score.value))), Ok(()))
  }

  /** `getEnsembleScore()`: a missing ensemble is computed by `hardEnsemble`
      first, whose failure is reported as "Ensemble score has not been
      calculated.". */
  function EnsembleScoreStep(st: ScoreState): (ScoreState, Result<real>)
  {
    if st.ensembleScore.Some? then (st, Ok(st.ensembleScore.value))
    else
      var (next, r) := HardScoreStep(st);
      if r.Err? then (next, Err(ValueError(NotCalculatedMessage)))
      else (next, Ok(next.ensembleScore.value))
  }

  /** `getEnsembleScore` fails exactly when a score is missing; once the
      ensemble is there it is reported as it is, and a computed one lies in
      the unit interval when both scores do. */
  lemma EnsembleScoreOutcome(st: ScoreState)
    ensures var (next, r) := EnsembleScoreStep(st);
      (r.Err? <==> st.ensembleScore.None? && (st.model1Score.None? || st.model2Score.None?))
      && (r.Ok? ==> next.ensembleScore == Some(r.value))
      && ((st.ensembleScore.None? && r.Ok? && InUnit(st.model1Score.value) && InUnit(st.model2Score.value))
          ==> InUnit(r.value))
      && (r.Err? ==> next == st && r.error == ValueError(NotCalculatedMessage))
  {
  }

  class ExperienceSimilarity {
    var model1Score: Option<real>
    var model2Score: Option<real>
    var ensembleScore: Option<real>

    function State(): ScoreState
      reads this
    {
      ScoreState(model1Score, model2Score, ensembleScore)
    }

    constructor()
      ensures State() == ScoreState(None, None, None)
    {
      model1Score := None;
      model2Score := None;
      ensembleScore := None;
    }

    method SetModel1Score(score: real)
      modifies this
      ensures State() == old(State()).(model1Score := Some(score))
    {
      model1Score := Some(score);
    }

    method SetModel2Score(score: real)
      modifies this
      ensures State() == old(State()).(model2Score := Some(score))
    {
      model2Score := Some(score);
    }

    method AverageEnsemble() returns (r: Result<()>)
      modifies this
      ensures (State(), r) == AverageScoreStep(old(State()))
    {
      if model1Score.None? || model2Score.None? {
        return Err(ValueError(NotSetMessage));
      }
      ensembleScore := Some((model1Score.value + model2Score.value) / 2.0);
      return Ok(());
    }

    method HardEnsemble() returns (r: Result<()>)
      modifies this
      ensures (State(), r) == HardScoreStep(old(State()))
    {
      if model1Score.None? || model2Score.None? {
        return Err(ValueError(NotSetMessage));
      }
      var m1, m2 := model1Score.value, model2Score.value;
      if m1 > 0.5 {
        ensembleScore := Some(Min1(m1 * 1.2));
      } else if m2 < 0.5 {
        ensembleScore := Some(Min1(m2 * 0.8));
      } else {
        r := AverageEnsemble();
        return;
      }
      return Ok(());
    }

    method GetEnsembleScore() returns (r: Result<real>)
      modifies this
      ensures (State(), r) == EnsembleScoreStep(old(State()))
    {
      if ensembleScore.None? {
        var h := HardEnsemble();
        if h.Err? {
          return Err(ValueError(NotCalculatedMessage));
        }
      }
      return Ok(ensembleScore.value);
    }

    method Reset()
      modifies this
      ensures State() == ScoreState(None, None, None)
    {
      model1Score := None;
      model2Score := None;
      ensembleScore := None;
    }
  }

  // ---------------------------------------------------------------------------
  // The matcher, as values
  // ---------------------------------------------------------------------------

  const ExperienceEmptyMessage: string := "Resume Experience and job Experience cannot be empty."

  /** The fields of an `ExperienceMatching` and of the objects it owns. The
      inputs are kept raw, without splitting. */
  datatype ExperienceState = ExperienceState(
    modelsLoaded: bool,
    resumeExperience: Option<string>,
    jobExperience: Option<string>,
    scores: ScoreState,
    resumeYears: NumeralizerState,
    jobYears: NumeralizerState,
    factor: real)

  /** Python's `not x` on a stored input. */
  predicate Missing(x: Option<string>)
  {
    x.None? || x.value == ""
  }

  function SetInputsStep(st: ExperienceState, resume: PyText, job: PyText): (ExperienceState, Result<()>)
  {
    if resume.Falsy() || job.Falsy() then (st, Err(ValueError(ExperienceEmptyMessage)))
    else if !resume.Str? then (st, Err(ValueError("Resume Experience must be a string.")))
    else if !job.Str? then (st, Err(ValueError("Job Experience must be a string.")))
    else (st.(resumeExperience := Some(resume.s), jobExperience := Some(job.s)), Ok(()))
  }

  /** The experience factor: resume years over job years, kept from before
      when either figure is 0. */
  function NextFactor(factor: real, resumeYears: real, jobYears: real): real
  {
    if resumeYears != 0.0 && jobYears != 0.0 then resumeYears / jobYears else factor
  }

  /** The final score: the ensemble scaled by the factor and capped at 1. */
  function ScaledScore(m1: real, m2: real, factor: real): (r: real)
    ensures InUnit(m1) && InUnit(m2) && factor >= 0.0 ==> InUnit(r)
    ensures r <= 1.0
  {
    Min1(HardValue(m1, m2) * factor)
  }

  /** The part of `makeMatch` inside its `try`: sanitise the job, then the
      resume, read the years (resume first), update the factor, score both
      models and scale the ensemble. A failure is reported as "Failed to
      make match: …" and keeps whatever was changed before it; in
      particular `encodeError`, an exception of the embedding models,
      arrives after the years are collected and the factor updated. */
  function ComputeStep(st: ExperienceState, maxInputLength: Option<nat>, sim1: Cosine, sim2: Cosine, encodeError: Option<string>): (res: (ExperienceState, Result<real>))
    requires !Missing(st.resumeExperience) && !Missing(st.jobExperience)
    ensures res.1.Ok? ==> res.0.scores.ensembleScore == Some(res.1.value)
  {
    var job := SanitizeInput(TextInput(st.jobExperience.value), maxInputLength);
    if job.Err? then (st, Err(RuntimeError(ListMatching.MatchFailedPrefix + Describe(job.error))))
    else
      var resume := SanitizeInput(TextInput(st.resumeExperience.value), maxInputLength);
      if resume.Err? then (st, Err(RuntimeError(ListMatching.MatchFailedPrefix + Describe(resume.error))))
      else
        var (rn, rr) := ExtractStep(st.resumeYears, resume.value);
        if rr.Err? then (st.(resumeYears := rn), Err(RuntimeError(ListMatching.MatchFailedPrefix + Describe(rr.error))))
        else
          var (jn, jr) := ExtractStep(st.jobYears, job.value);
          var st1 := st.(resumeYears := rn, jobYears := jn);
          if jr.Err? then (st1, Err(RuntimeError(ListMatching.MatchFailedPrefix + Describe(jr.error))))
          else
            var factor := NextFactor(st.factor, rr.value, jr.value);
            if encodeError.Some? then (st1.(factor := factor), Err(RuntimeError(ListMatching.MatchFailedPrefix + encodeError.value)))
            else
            var m1 := Clamp0(sim1(job.value, resume.value));
            var m2 := Clamp0(sim2(job.value, resume.value));
            var score := ScaledScore(m1, m2, factor);
            (st1.(factor := factor, scores := ScoreState(Some(m1), Some(m2), Some(score))), Ok(score))
  }

  /** `makeMatch()`: load the models when they are missing, check the
      inputs, then compute. */
  function MatchStep(name1: string, name2: string, maxInputLength: Option<nat>, st: ExperienceState,
                     sim1: Cosine, sim2: Cosine, loaderError: Option<string>, encodeError: Option<string>): (ExperienceState, Result<real>)
  {
    var load := ListMatching.LoadModelsOutcome(name1, name2, loaderError);
    if !st.modelsLoaded && load.Err? then (st, Err(RuntimeError("Failed to load models: " + Describe(load.error))))
    else
      var loaded := st.(modelsLoaded := true);
      if Missing(st.resumeExperience) || Missing(st.jobExperience) then (loaded, Err(ValueError(ListMatching.InputsNotSetMessage)))
      else ComputeStep(loaded, maxInputLength, sim1, sim2, encodeError)
  }

  /** `getSimilarityScore()`: run `makeMatch` while there is no ensemble
      score, reporting its failure as "Failed to get similarity score: …". */
  function GetScoreStep(name1: string, name2: string, maxInputLength: Option<nat>, st: ExperienceState,
                        sim1: Cosine, sim2: Cosine, loaderError: Option<string>, encodeError: Option<string>): (ExperienceState, Result<real>)
  {
    if st.scores.ensembleScore.None? then
      var (st1, m) := MatchStep(name1, name2, maxInputLength, st, sim1, sim2, loaderError, encodeError);
      if m.Err? then (st1, Err(RuntimeError("Failed to get similarity score: " + Describe(m.error))))
      else
        var (s, r) := EnsembleScoreStep(st1.scores);
        (st1.(scores := s), r)
    else
      var (s, r) := EnsembleScoreStep(st.scores);
      (st.(scores := s), r)
  }

  /** The invariant of a matcher whose numeralisers have their own modes:
      the factor stays positive and every collected value is non-negative. */
  predicate Consistent(st: ExperienceState)
  {
    st.factor > 0.0
    && st.resumeYears.mode == Some("sum") && st.jobYears.mode == Some("avg")
    && NonNegative(st.resumeYears.years) && NonNegative(st.jobYears.years)
  }

  /** A positive factor stays positive. */
  lemma NextFactorPositive(factor: real, resumeYears: real, jobYears: real)
    requires factor > 0.0 && resumeYears >= 0.0 && jobYears >= 0.0
    ensures NextFactor(factor, resumeYears, jobYears) > 0.0
  {
    if resumeYears != 0.0 && jobYears != 0.0 {
      assert resumeYears > 0.0 && jobYears > 0.0;
    }
  }

  /** The `try` body on a consistent matcher with both inputs fails exactly
      when an input is too long (or the limit is missing) or the embedding
      models raise; a score lies in the unit interval and is stored; the
      matcher stays consistent; and the year lists only grow. */
  lemma ComputeOutcome(st: ExperienceState, maxInputLength: Option<nat>, sim1: Cosine, sim2: Cosine, encodeError: Option<string>)
    requires Consistent(st) && !Missing(st.resumeExperience) && !Missing(st.jobExperience)
    ensures var (next, r) := ComputeStep(st, maxInputLength, sim1, sim2, encodeError);
      (r.Err? <==>
        maxInputLength.None?
        || |st.jobExperience.value| > maxInputLength.value
        || |st.resumeExperience.value| > maxInputLength.value
        || encodeError.Some?)
      && (r.Ok? ==> InUnit(r.value) && next.scores.ensembleScore == Some(r.value))
      && Consistent(next) && next.modelsLoaded == st.modelsLoaded
      && st.resumeYears.years <= next.resumeYears.years
      && st.jobYears.years <= next.jobYears.years
  {
    var job := SanitizeInput(TextInput(st.jobExperience.value), maxInputLength);
    var resume := SanitizeInput(TextInput(st.resumeExperience.value), maxInputLength);
    if job.Ok? && resume.Ok? {
      ExtractGrows(st.resumeYears, resume.value);
      ExtractGrows(st.jobYears, job.value);
      var (rn, rr) := ExtractStep(st.resumeYears, resume.value);
      var (jn, jr) := ExtractStep(st.jobYears, job.value);
      NextFactorPositive(st.factor, rr.value, jr.value);
      var m1 := Clamp0(sim1(job.value, resume.value));
      var m2 := Clamp0(sim2(job.value, resume.value));
      assert InUnit(m1) && InUnit(m2);
    }
  }

  /** `makeMatch` on a consistent matcher fails exactly when the models
      cannot be loaded, an input is missing, an input is too long (or the
      limit is missing), or the embedding models raise; a score lies in the
      unit interval; the matcher stays consistent; and the year lists only
      grow. */
  lemma MatchOutcome(name1: string, name2: string, maxInputLength: Option<nat>, st: ExperienceState,
                     sim1: Cosine, sim2: Cosine, loaderError: Option<string>, encodeError: Option<string>)
    requires Consistent(st)
    ensures var (next, r) := MatchStep(name1, name2, maxInputLength, st, sim1, sim2, loaderError, encodeError);
      (r.Err? <==>
        (!st.modelsLoaded && ListMatching.LoadModelsOutcome(name1, name2, loaderError).Err?)
        || Missing(st.resumeExperience) || Missing(st.jobExperience)
        || maxInputLength.None?
        || |st.jobExperience.value| > maxInputLength.value
        || |st.resumeExperience.value| > maxInputLength.value
        || encodeError.Some?)
      && (r.Ok? ==> InUnit(r.value) && next.scores.ensembleScore == Some(r.value))
      && Consistent(next)
      && st.resumeYears.years <= next.resumeYears.years
      && st.jobYears.years <= next.jobYears.years
  {
    if (st.modelsLoaded || ListMatching.LoadModelsOutcome(name1, name2, loaderError).Ok?)
      && !Missing(st.resumeExperience) && !Missing(st.jobExperience)
    {
      ComputeOutcome(st.(modelsLoaded := true), maxInputLength, sim1, sim2, encodeError);
    }
  }

  /** An exception of the embedding models arrives after the years are
      read: the matcher keeps the values both texts added and the updated
      factor, its scores stay as they were, and the exception is wrapped as
      "Failed to make match: …". */
  lemma EncodeFailureKeepsYears(name1: string, name2: string, maxInputLength: nat, st: ExperienceState,
                                sim1: Cosine, sim2: Cosine, loaderError: Option<string>, e: string)
    requires Consistent(st)
    requires st.modelsLoaded || ListMatching.LoadModelsOutcome(name1, name2, loaderError).Ok?
    requires !Missing(st.resumeExperience) && !Missing(st.jobExperience)
    requires |st.resumeExperience.value| <= maxInputLength && |st.jobExperience.value| <= maxInputLength
    ensures var resume := SanitizeInput(TextInput(st.resumeExperience.value), Some(maxInputLength)).value;
      var job := SanitizeInput(TextInput(st.jobExperience.value), Some(maxInputLength)).value;
      var (rn, rr) := ExtractStep(st.resumeYears, resume);
      var (jn, jr) := ExtractStep(st.jobYears, job);
      rr.Ok? && jr.Ok?
      && MatchStep(name1, name2, Some(maxInputLength), st, sim1, sim2, loaderError, Some(e))
         == (st.(modelsLoaded := true, resumeYears := rn, jobYears := jn, factor := NextFactor(st.factor, rr.value, jr.value)),
             Err(RuntimeError("Failed to make match: " + e)))
  {
    var resume := SanitizeInput(TextInput(st.resumeExperience.value), Some(maxInputLength)).value;
    var job := SanitizeInput(TextInput(st.jobExperience.value), Some(maxInputLength)).value;
    ExtractGrows(st.resumeYears, resume);
    ExtractGrows(st.jobYears, job);
  }

  /** The figures the factor is made of: with a resume worth 2 years and a
      job worth 4, and both models finding the texts identical, the score is
      halved to 0.5. */
  lemma HalfTheYearsHalfTheScore()
    ensures ScaledScore(Clamp0(1.0), Clamp0(1.0), NextFactor(1.0, 2.0, 4.0)) == 0.5
  {
  }

  /** Reading the same text with digits twice on a fresh numeraliser
      appends its values twice. */
  lemma RereadAppendsAgain(mode: Option<string>, text: string)
    requires exists k :: 0 <= k < |text| && IsDigit(text[k])
    ensures var first := ExtractStep(NumeralizerState([], mode), text).0;
      |first.years| > 0 && first.mode == mode
      && ExtractStep(first, text).0 == NumeralizerState(first.years + first.years, mode)
  {
    var k :| 0 <= k < |text| && IsDigit(text[k]);
    DigitYieldsSingle(text, 0, k);
    var found := FindAll(RangePattern, text, 0) + FindAll(SinglePattern, text, 0);
    assert Extracted([], text) == found;
    assert Extracted(found, text) == found;
  }

  /** The years are never cleared between matches: reading the same text
      with digits again on the same numeraliser appends its values again, so
      a resume's summed years double while a job's average stays put. */
  lemma RepeatedMatchDoublesResumeYears(text: string)
    requires exists k :: 0 <= k < |text| && IsDigit(text[k])
    ensures var first := ExtractStep(NumeralizerState([], Some("sum")), text);
      var second := ExtractStep(first.0, text);
      second.0.years == first.0.years + first.0.years
      && first.1.Ok? && second.1 == Ok(2.0 * first.1.value)
    ensures var first := ExtractStep(NumeralizerState([], Some("avg")), text);
      var second := ExtractStep(first.0, text);
      second.0.years == first.0.years + first.0.years
      && first.1.Ok? && second.1 == first.1
  {
    RereadAppendsAgain(Some("sum"), text);
    var sums := ExtractStep(NumeralizerState([], Some("sum")), text).0.years;
    RepeatedListMean(sums);
    RereadAppendsAgain(Some("avg"), text);
    var avgs := ExtractStep(NumeralizerState([], Some("avg")), text).0.years;
    RepeatedListMean(avgs);
  }

  /** `getSimilarityScore` returns a stored ensemble score as it is, without
      running `makeMatch` or changing anything. */
  lemma StoredScoreIsReturned(name1: string, name2: string, maxInputLength: Option<nat>, st: ExperienceState,
                              sim1: Cosine, sim2: Cosine, loaderError: Option<string>, encodeError: Option<string>)
    requires st.scores.ensembleScore.Some?
    ensures GetScoreStep(name1, name2, maxInputLength, st, sim1, sim2, loaderError, encodeError)
            == (st, Ok(st.scores.ensembleScore.value))
  {
    assert EnsembleScoreStep(st.scores) == (st.scores, Ok(st.scores.ensembleScore.value));
  }

  /** After a successful `makeMatch`, `getSimilarityScore` returns the same
      score and leaves the matcher as `makeMatch` left it. */
  lemma ScoreAfterMatchAgrees(name1: string, name2: string, maxInputLength: Option<nat>, st: ExperienceState,
                              sim1: Cosine, sim2: Cosine, loaderError: Option<string>, encodeError: Option<string>)
    requires MatchStep(name1, name2, maxInputLength, st, sim1, sim2, loaderError, encodeError).1.Ok?
    ensures var (next, r) := MatchStep(name1, name2, maxInputLength, st, sim1, sim2, loaderError, encodeError);
      GetScoreStep(name1, name2, maxInputLength, next, sim1, sim2, loaderError, encodeError) == (next, r)
  {
    var (next, r) := MatchStep(name1, name2, maxInputLength, st, sim1, sim2, loaderError, encodeError);
    assert next.scores.ensembleScore == Some(r.value);
    StoredScoreIsReturned(name1, name2, maxInputLength, next, sim1, sim2, loaderError, encodeError);
  }

  /** With no ensemble score yet, `getSimilarityScore` runs `makeMatch`: it
      returns that score and state, or reports the failure as "Failed to get
      similarity score: …" in the state the failed `makeMatch` left. */
  lemma ScoreRunsMakeMatch(name1: string, name2: string, maxInputLength: Option<nat>, st: ExperienceState,
                           sim1: Cosine, sim2: Cosine, loaderError: Option<string>, encodeError: Option<string>)
    requires st.scores.ensembleScore.None?
    ensures var (next, r) := MatchStep(name1, name2, maxInputLength, st, sim1, sim2, loaderError, encodeError);
      GetScoreStep(name1, name2, maxInputLength, st, sim1, sim2, loaderError, encodeError)
      == if r.Err? then (next, Err(RuntimeError("Failed to get similarity score: " + Describe(r.error))))
         else (next, r)
  {
    var (next, r) := MatchStep(name1, name2, maxInputLength, st, sim1, sim2, loaderError, encodeError);
    if r.Ok? {
      ScoreAfterMatchAgrees(name1, name2, maxInputLength, st, sim1, sim2, loaderError, encodeError);
    }
  }

  // ---------------------------------------------------------------------------
  // The matcher
  // ---------------------------------------------------------------------------

  class ExperienceMatching {
    const modelName1: string
    const modelName2: string
    const maxInputLength: Option<nat>
    const similarity: ExperienceSimilarity
    const resumeNumeralizer: Numeralizer
    const jobNumeralizer: Numeralizer
    var modelsLoaded: bool
    var resumeExperience: Option<string>
    var jobExperience: Option<string>
    var factor: real

    predicate Valid()
    {
      resumeNumeralizer != jobNumeralizer
    }

    function State(): ExperienceState
      reads this, similarity, resumeNumeralizer, jobNumeralizer
    {
      ExperienceState(modelsLoaded, resumeExperience, jobExperience, similarity.State(),
                      resumeNumeralizer.State(), jobNumeralizer.State(), factor)
    }

    /** `ExperienceMatching(modelName1, modelName2)`: the names fall back on
        the package configuration, and so does the length limit. */
    constructor(modelName1: Option<string>, modelName2: Option<string>, config: ListMatching.PackageConfig)
      ensures Valid() && fresh(similarity) && fresh(resumeNumeralizer) && fresh(jobNumeralizer)
      ensures this.modelName1 == ListMatching.NameOrDefault(modelName1, config.modelName1)
      ensures this.modelName2 == ListMatching.NameOrDefault(modelName2, config.modelName2)
      ensures maxInputLength == config.maxInputLength
      ensures State() == ExperienceState(false, None, None, ScoreState(None, None, None),
                                         NumeralizerState([], Some("sum")), NumeralizerState([], Some("avg")), 1.0)
      ensures Consistent(State())
    {
      this.modelName1 := ListMatching.NameOrDefault(modelName1, config.modelName1);
      this.modelName2 := ListMatching.NameOrDefault(modelName2, config.modelName2);
      maxInputLength := config.maxInputLength;
      similarity := new ExperienceSimilarity();
      resumeNumeralizer := new Numeralizer("sum");
      jobNumeralizer := new Numeralizer("avg");
      modelsLoaded := false;
      resumeExperience := None;
      jobExperience := None;
      factor := 1.0;
    }

    method LoadModels(loaderError: Option<string>) returns (r: Result<()>)
      modifies this
      ensures r == ListMatching.LoadModelsOutcome(modelName1, modelName2, loaderError)
      ensures modelsLoaded == (old(modelsLoaded) || r.Ok?)
      ensures resumeExperience == old(resumeExperience) && jobExperience == old(jobExperience)
      ensures factor == old(factor)
    {
      if modelName1 == "" || modelName2 == "" {
        return Err(ValueError(ListMatching.ModelNamesMessage));
      }
      if loaderError.Some? {
        return Err(RuntimeError("Failed to load models '" + modelName1 + "' and '" + modelName2 + "': " + loaderError.value));
      }
      modelsLoaded := true;
      return Ok(());
    }

    method SetInputs(resume: PyText, job: PyText) returns (r: Result<()>)
      modifies this
      ensures (State(), r) == SetInputsStep(old(State()), resume, job)
    {
      if resume.Falsy() || job.Falsy() {
        return Err(ValueError(ExperienceEmptyMessage));
      }
      if !resume.Str? {
        return Err(ValueError("Resume Experience must be a string."));
      }
      if !job.Str? {
        return Err(ValueError("Job Experience must be a string."));
      }
      resumeExperience := Some(resume.s);
      jobExperience := Some(job.s);
      return Ok(());
    }

    method MakeMatch(sim1: Cosine, sim2: Cosine, loaderError: Option<string>, encodeError: Option<string>) returns (r: Result<real>)
      requires Valid()
      modifies this, similarity, resumeNumeralizer, jobNumeralizer
      ensures (State(), r) == MatchStep(modelName1, modelName2, maxInputLength, old(State()), sim1, sim2, loaderError, encodeError)
    {
      if !modelsLoaded {
        var l := LoadModels(loaderError);
        if l.Err? {
          return Err(RuntimeError("Failed to load models: " + Describe(l.error)));
        }
      }
      modelsLoaded := true;
      if Missing(resumeExperience) || Missing(jobExperience) {
        return Err(ValueError(ListMatching.InputsNotSetMessage));
      }
      r := Compute(sim1, sim2, encodeError);
    }

    /** The `try` block of `makeMatch`. */
    method Compute(sim1: Cosine, sim2: Cosine, encodeError: Option<string>) returns (r: Result<real>)
      requires Valid() && !Missing(resumeExperience) && !Missing(jobExperience)
      modifies this, similarity, resumeNumeralizer, jobNumeralizer
      ensures (State(), r) == ComputeStep(old(State()), maxInputLength, sim1, sim2, encodeError)
    {
      var job := SanitizeInput(TextInput(jobExperience.value), maxInputLength);
      if job.Err? {
        return Err(RuntimeError(ListMatching.MatchFailedPrefix + Describe(job.error)));
      }
      var resume := SanitizeInput(TextInput(resumeExperience.value), maxInputLength);
      if resume.Err? {
        return Err(RuntimeError(ListMatching.MatchFailedPrefix + Describe(resume.error)));
      }
      var resumeNumeral := resumeNumeralizer.ExtractYears(resume.value);
      if resumeNumeral.Err? {
        return Err(RuntimeError(ListMatching.MatchFailedPrefix + Describe(resumeNumeral.error)));
      }
      var jobNumeral := jobNumeralizer.ExtractYears(job.value);
      if jobNumeral.Err? {
        return Err(RuntimeError(ListMatching.MatchFailedPrefix + Describe(jobNumeral.error)));
      }
      factor := NextFactor(factor, resumeNumeral.value, jobNumeral.value);
      if encodeError.Some? {
        return Err(RuntimeError(ListMatching.MatchFailedPrefix + encodeError.value));
      }
      var m1 := Clamp0(sim1(job.value, resume.value));
      var m2 := Clamp0(sim2(job.value, resume.value));
      Score(m1, m2, factor);
      r := similarity.GetEnsembleScore();
    }

    /** Record both scores, ensemble them, and scale by the factor. */
    method Score(m1: real, m2: real, f: real)
      modifies similarity
      ensures similarity.State() == ScoreState(Some(m1), Some(m2), Some(ScaledScore(m1, m2, f)))
    {
      similarity.SetModel1Score(m1);
      similarity.SetModel2Score(m2);
      var h := similarity.HardEnsemble();
      assert similarity.ensembleScore == Some(HardValue(m1, m2));
      var scaled := Min1(similarity.ensembleScore.value * f);
      assert scaled == ScaledScore(m1, m2, f);
      similarity.ensembleScore := Some(scaled);
    }

    method GetSimilarityScore(sim1: Cosine, sim2: Cosine, loaderError: Option<string>, encodeError: Option<string>) returns (r: Result<real>)
      requires Valid()
      modifies this, similarity, resumeNumeralizer, jobNumeralizer
      ensures (State(), r) == GetScoreStep(modelName1, modelName2, maxInputLength, old(State()), sim1, sim2, loaderError, encodeError)
    {
      if similarity.ensembleScore.None? {
        var m := MakeMatch(sim1, sim2, loaderError, encodeError);
        if m.Err? {
          return Err(RuntimeError("Failed to get similarity score: " + Describe(m.error)));
        }
      }
      r := similarity.GetEnsembleScore();
    }

    /** `reset()`: clears the scores, the models and the inputs; the
        numeralisers and the factor are left as they are. */
    method Reset()
      modifies this, similarity
      ensures State() == old(State()).(modelsLoaded := false, resumeExperience := None, jobExperience := None,
                                       scores := ScoreState(None, None, None))
    {
      similarity.Reset();
      modelsLoaded := false;
      resumeExperience := None;
      jobExperience := None;
    }
  }
}
