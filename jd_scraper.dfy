/** The job-description scraper: clean-up of the text a page yields, the
    rule that decides whether that text is kept, and the scraper's reset.
    Fetching the page and extracting its main text are foreign calls and
    arrive here as parameters. */
module JobScraper {

  import opened Wrappers
  import opened Text

  // ---------------------------------------------------------------------------
  // `re.sub(r'\n+', '\n', text)`
  // ---------------------------------------------------------------------------

  /** No two newlines stand next to each other. */
  predicate NoDoubleNewline(s: string)
  {
    forall i | 0 <= i < |s| - 1 :: !(s[i] == '\n' && s[i + 1] == '\n')
  }

  /** `s` with every newline removed: what collapsing newline runs must keep. */
  function WithoutNewlines(s: string): string
  {
    if s == [] then []
    else if s[0] == '\n' then WithoutNewlines(s[1..])
    else [s[0]] + WithoutNewlines(s[1..])
  }

  /** Every run of newlines replaced by a single newline. */
  function CollapseNewlines(s: string): string
  {
    if s == [] then []
    else if |s| >= 2 && s[0] == '\n' && s[1] == '\n' then CollapseNewlines(s[1..])
    else [s[0]] + CollapseNewlines(s[1..])
  }

  /** Collapsing leaves no two newlines together, keeps every other
      character in order, keeps the first and the last character, and leaves
      alone a text that already has no run to collapse. */
  lemma {:induction false} CollapseNewlinesSpec(s: string)
    ensures var r := CollapseNewlines(s);
      NoDoubleNewline(r) && WithoutNewlines(r) == WithoutNewlines(s)
      && |r| <= |s| && (s == [] <==> r == [])
      && (s != [] ==> r[0] == s[0] && r[|r| - 1] == s[|s| - 1])
      && (NoDoubleNewline(s) ==> r == s)
    decreases |s|
  {
    if s != [] {
      var rest := CollapseNewlines(s[1..]);
      CollapseNewlinesSpec(s[1..]);
      if NoDoubleNewline(s) {
        assert NoDoubleNewline(s[1..]) by {
          forall i | 0 <= i < |s[1..]| - 1
            ensures !(s[1..][i] == '\n' && s[1..][i + 1] == '\n')
          {
            assert s[1..][i] == s[i + 1] && s[1..][i + 1] == s[i + 2];
          }
        }
      }
      if !(|s| >= 2 && s[0] == '\n' && s[1] == '\n') {
        var r := [s[0]] + rest;
        assert r[1..] == rest;
        forall i | 0 <= i < |r| - 1
          ensures !(r[i] == '\n' && r[i + 1] == '\n')
        {
          if i > 0 {
            assert r[i] == rest[i - 1] && r[i + 1] == rest[i];
          }
        }
      }
    }
  }

  /** A contiguous piece of a text without newline runs has none either. */
  lemma PieceKeepsNoDoubleNewline(s: string, piece: string, at: int)
    requires NoDoubleNewline(s) && OccursAt(s, piece, at)
    ensures NoDoubleNewline(piece)
  {
    forall i | 0 <= i < |piece| - 1
      ensures !(piece[i] == '\n' && piece[i + 1] == '\n')
    {
      assert piece[i] == s[at + i] && piece[i + 1] == s[at + i + 1];
    }
  }

  /** A pattern found in a piece of a text is found in the text. */
  lemma PieceContainment(s: string, piece: string, at: int, pat: string)
    requires OccursAt(s, piece, at) && Contains(piece, pat)
    ensures exists j :: at <= j && j + |pat| <= at + |piece| && OccursAt(s, pat, j)
  {
    var k :| 0 <= k <= |piece| && OccursAt(piece, pat, k);
    forall m | 0 <= m < |pat|
      ensures s[at + k + m] == pat[m]
    {
      assert piece[k + m] == pat[m] && piece[k + m] == s[at + k + m];
    }
    assert OccursAt(s, pat, at + k);
  }

  // ---------------------------------------------------------------------------
  // Cutting at the first cutoff phrase
  // ---------------------------------------------------------------------------

  /** The phrases after which a job page stops describing the job, in the
      order they are tried. */
  const CutoffPhrases: seq<string> := [
    "Seniority level",
    "Referrals increase your chances",
    "People also viewed",
    "Similar jobs",
    "Explore collaborative articles"
  ]

  /** The loop over the phrases: the first one (in list order) that occurs
      anywhere cuts the text at its first occurrence, and the part before it
      is stripped; later phrases are not tried. */
  function CutFirst(text: string, phrases: seq<string>): string
  {
    if phrases == [] then text
    else match Find(text, phrases[0])
      case Some(i) => Strip(text[..i])
      case None => CutFirst(text, phrases[1..])
  }

  /** `postProcessJDText(text)`. */
  function PostProcess(text: string): string
  {
    CutFirst(CollapseNewlines(Strip(text)), CutoffPhrases)
  }

  /** When no phrase occurs the text is returned as it is. */
  lemma {:induction false} NoPhraseNoCut(text: string, phrases: seq<string>)
    requires forall k | 0 <= k < |phrases| :: !Contains(text, phrases[k])
    ensures CutFirst(text, phrases) == text
  {
    if phrases != [] {
      assert !Contains(text, phrases[0]);
      NoPhraseNoCut(text, phrases[1..]);
    }
  }

  /** When phrase `k` is the first of the list to occur, the result is the
      stripped text before its first occurrence, and that phrase no longer
      occurs in it. */
  lemma {:induction false} CutAtFirstFound(text: string, phrases: seq<string>, k: nat)
    requires k < |phrases| && phrases[k] != []
    requires Contains(text, phrases[k])
    requires forall j | 0 <= j < k :: !Contains(text, phrases[j])
    ensures Find(text, phrases[k]).Some?
    ensures CutFirst(text, phrases) == Strip(text[..Find(text, phrases[k]).value])
    ensures !Contains(CutFirst(text, phrases), phrases[k])
  {
    if k == 0 {
      var i := Find(text, phrases[0]).value;
      var pat := phrases[0];
      var prefix := text[..i];
      var r := Strip(prefix);
      StripSpec(prefix);
      if Contains(r, pat) {
        var at :| OccursAt(prefix, r, at);
        PieceContainment(prefix, r, at, pat);
        var j :| at <= j && j + |pat| <= at + |r| && OccursAt(prefix, pat, j);
        assert text[j..j + |pat|] == prefix[j..j + |pat|];
        assert OccursAt(text, pat, j) && j < i;
        assert false;
      }
    } else {
      assert !Contains(text, phrases[0]);
      CutAtFirstFound(text, phrases[1..], k - 1);
    }
  }

  /** Cutting keeps a text without newline runs free of them. */
  lemma {:induction false} CutKeepsNoDoubleNewline(text: string, phrases: seq<string>)
    requires NoDoubleNewline(text)
    ensures NoDoubleNewline(CutFirst(text, phrases))
  {
    if phrases != [] {
      match Find(text, phrases[0])
      case Some(i) =>
        var prefix := text[..i];
        PieceKeepsNoDoubleNewline(text, prefix, 0);
        StripSpec(prefix);
        var at :| OccursAt(prefix, Strip(prefix), at);
        PieceKeepsNoDoubleNewline(prefix, Strip(prefix), at);
      case None =>
        CutKeepsNoDoubleNewline(text, phrases[1..]);
    }
  }

  /** The processed text never holds two newlines in a row. */
  lemma PostProcessNoDoubleNewline(text: string)
    ensures NoDoubleNewline(PostProcess(text))
  {
    CollapseNewlinesSpec(Strip(text));
    CutKeepsNoDoubleNewline(CollapseNewlines(Strip(text)), CutoffPhrases);
  }

  /** A page without any cutoff phrase keeps all of its (stripped,
      collapsed) text. */
  lemma UncutPage(text: string)
    requires forall k | 0 <= k < |CutoffPhrases| :: !Contains(CollapseNewlines(Strip(text)), CutoffPhrases[k])
    ensures PostProcess(text) == CollapseNewlines(Strip(text))
  {
    NoPhraseNoCut(CollapseNewlines(Strip(text)), CutoffPhrases);
  }

  /** The example page: the text before "Seniority level" survives, and the
      later "Referrals" line makes no second cut. */
  lemma SeniorityCutExample(text: string)
    requires text == "Sample Job Description" + "\n\n" + "Seniority level" + ": Senior" + "\n\n"
                     + "Referrals increase your chances"
    ensures PostProcess(text) == "Sample Job Description"
  {
    var head := "Sample Job Description";
    var pat := "Seniority level";
    var mid := pat + ": Senior";
    var tail := "Referrals increase your chances";
    assert text == head + "\n\n" + (mid + "\n\n" + tail);
    assert text[0] == 'S' && text[|text| - 1] == 's';
    StrippedIsFixed(text);
    var collapsed := ExampleCollapse(head, mid, tail);
    assert collapsed == head + "\n" + pat + (": Senior" + "\n" + tail);
    ExampleFind(head, pat, ": Senior" + "\n" + tail, collapsed);
    assert collapsed[..|head| + 1] == head + "\n";
    ExampleStrip(head);
  }

  /** Each double newline of the example page becomes a single one. */
  lemma ExampleCollapse(head: string, mid: string, tail: string) returns (collapsed: string)
    requires head == "Sample Job Description" && mid == "Seniority level" + ": Senior"
    requires tail == "Referrals increase your chances"
    ensures collapsed == head + "\n" + (mid + "\n" + tail)
    ensures CollapseNewlines(head + "\n\n" + (mid + "\n\n" + tail)) == collapsed
  {
    ExampleCollapseTail(mid, tail);
    var rest := mid + "\n\n" + tail;
    assert rest[0] == 'S';
    assert forall i | 0 <= i < |head| :: head[i] != '\n';
    CollapseAround(head, rest);
    collapsed := head + "\n" + (mid + "\n" + tail);
  }

  lemma ExampleCollapseTail(mid: string, tail: string)
    requires mid == "Seniority level" + ": Senior"
    requires tail == "Referrals increase your chances"
    ensures CollapseNewlines(mid + "\n\n" + tail) == mid + "\n" + tail
  {
    NoNewlineNoDoubleNewline(tail);
    CollapseNewlinesSpec(tail);
    assert tail[0] == 'R';
    assert forall i | 0 <= i < |mid| :: mid[i] != '\n';
    CollapseAround(mid, tail);
  }

  lemma NoNewlineNoDoubleNewline(s: string)
    requires forall i | 0 <= i < |s| :: s[i] != '\n'
    ensures NoDoubleNewline(s)
  {
  }

  /** `a + "\n\n" + b` collapses to `a + "\n" + CollapseNewlines(b)` when `a`
      has no newline and `b` does not start with one. */
  lemma {:induction false} CollapseAround(a: string, b: string)
    requires forall i | 0 <= i < |a| :: a[i] != '\n'
    requires b != [] && b[0] != '\n'
    ensures CollapseNewlines(a + "\n\n" + b) == a + "\n" + CollapseNewlines(b)
    decreases |a|
  {
    if a == [] {
      assert a + "\n\n" + b == "\n\n" + b;
      assert ("\n\n" + b)[1..] == "\n" + b;
      assert ("\n" + b)[1..] == b;
    } else {
      assert (a + "\n\n" + b)[1..] == a[1..] + "\n\n" + b;
      CollapseAround(a[1..], b);
      assert a + "\n" + CollapseNewlines(b) == [a[0]] + (a[1..] + "\n" + CollapseNewlines(b));
    }
  }

  /** The first cutoff phrase first occurs right after the example's
      first line. */
  lemma ExampleFind(head: string, pat: string, rest: string, collapsed: string)
    requires head == "Sample Job Description" && pat == "Seniority level"
    requires collapsed == head + "\n" + pat + rest
    ensures CutFirst(collapsed, CutoffPhrases) == Strip(collapsed[..|head| + 1])
  {
    assert CutoffPhrases[0] == pat;
    assert collapsed[|head| + 1..|head| + 1 + |pat|] == pat;
    assert OccursAt(collapsed, pat, |head| + 1);
    forall j | 0 <= j < |head| + 1
      ensures !OccursAt(collapsed, pat, j)
    {
      var window := collapsed[j..j + |pat|];
      if j < |head| {
        assert collapsed[j] == head[j] && collapsed[j + 1] == (head + "\n")[j + 1];
      }
      assert window[0] != pat[0] || window[1] != pat[1];
    }
    assert Find(collapsed, pat) == Some(|head| + 1);
  }

  lemma ExampleStrip(head: string)
    requires head == "Sample Job Description"
    ensures Strip(head + "\n") == head
  {
    var line := head + "\n";
    assert line[0] == 'S';
    assert TrimLeft(line) == line;
    assert line[..|line| - 1] == head;
    assert TrimRight(head) == head;
  }

  // ---------------------------------------------------------------------------
  // The scraper
  // ---------------------------------------------------------------------------

  /** Python's `if text and len(text) > 200`: the extracted text is long
      enough to be a job description. */
  predicate LongEnough(text: Option<string>)
  {
    text.Some? && |text.value| > 200
  }

  class JobDescriptionScraper {
    var baseUrl: Option<string>
    var jobDescription: string
    /** Whether a live browser driver is held. */
    var driverOpen: bool

    /** `JobDescriptionScraper()`. */
    constructor()
      ensures baseUrl == None && jobDescription == "" && !driverOpen
    {
      baseUrl := None;
      jobDescription := "";
      driverOpen := false;
    }

    /** `postProcessJDText(text)`: strip, collapse newline runs, then try the
        cutoff phrases in order and cut at the first one found. */
    method PostProcessJDText(text: string) returns (r: string)
      ensures r == PostProcess(text)
      ensures NoDoubleNewline(r)
    {
      r := CollapseNewlines(Strip(text));
      ghost var collapsed := r;
      var i := 0;
      while i < |CutoffPhrases|
        invariant i <= |CutoffPhrases| && r == collapsed
        invariant CutFirst(collapsed, CutoffPhrases) == CutFirst(r, CutoffPhrases[i..])
      {
        var phrase := CutoffPhrases[i];
        assert CutoffPhrases[i..][1..] == CutoffPhrases[i + 1..];
        var found := Find(r, phrase);
        if found.Some? {
          r := Strip(r[..found.value]);
          break;
        }
        i := i + 1;
      }
      PostProcessNoDoubleNewline(text);
    }

    /** The acceptance step of `extractJobDescription`: the extracted text
        replaces the stored description, processed, only when it is longer
        than 200 characters. */
    method AcceptExtracted(text: Option<string>)
      modifies this
      ensures LongEnough(text) ==> jobDescription == PostProcess(text.value)
      ensures !LongEnough(text) ==> jobDescription == old(jobDescription)
      ensures baseUrl == old(baseUrl) && driverOpen == old(driverOpen)
    {
      if text.Some? && text.value != "" && |text.value| > 200 {
        jobDescription := PostProcessJDText(text.value);
      }
    }

    /** `extractJobDescription()`: a driver is opened first; a description
        already held is returned at once (the driver stays open); without a
        URL a `ValueError` is raised; a page that fails to load raises a
        `RuntimeError`; otherwise the extracted text goes through the
        acceptance step and the driver is closed. `loadError` and `extracted`
        stand for the browser and the text extractor. */
    method ExtractJobDescription(loadError: Option<string>, extracted: Option<string>) returns (r: Result<string>)
      modifies this
      ensures driverOpen == (r.Err? || old(jobDescription) != "")
      ensures baseUrl == old(baseUrl)
      ensures old(jobDescription) != "" ==> r == Ok(old(jobDescription)) && jobDescription == old(jobDescription)
      ensures old(jobDescription) == "" && (old(baseUrl).None? || old(baseUrl) == Some("")) ==>
        r == Err(ValueError("baseUrl must be set before extracting job description.")) && jobDescription == ""
      ensures old(jobDescription) == "" && old(baseUrl).Some? && old(baseUrl) != Some("") && loadError.Some? ==>
        r == Err(RuntimeError("Error loading page: " + loadError.value)) && jobDescription == ""
      ensures r.Ok? ==> r.value == jobDescription
      ensures old(jobDescription) == "" && r.Ok? ==>
        jobDescription == (if LongEnough(extracted) then PostProcess(extracted.value) else "")
      ensures old(jobDescription) == "" && old(baseUrl).Some? && old(baseUrl) != Some("") && loadError.None? ==>
        r.Ok? && !driverOpen &&
        r.value == (if LongEnough(extracted) then PostProcess(extracted.value) else "")
    {
      driverOpen := true;
      if jobDescription != "" {
        return Ok(jobDescription);
      }
      if baseUrl.None? || baseUrl.value == "" {
        return Err(ValueError("baseUrl must be set before extracting job description."));
      }
      if loadError.Some? {
        return Err(RuntimeError("Error loading page: " + loadError.value));
      }
      AcceptExtracted(extracted);
      driverOpen := false;
      return Ok(jobDescription);
    }

    /** `resetScraper()`: back to the state of a new scraper, the driver
        closed. */
    method ResetScraper()
      modifies this
      ensures baseUrl == None && jobDescription == "" && !driverOpen
    {
      baseUrl := None;
      jobDescription := "";
      driverOpen := false;
    }
  }
}
