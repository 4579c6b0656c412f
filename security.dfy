/** `sanitizeInput`: decode bytes as UTF-8 (invalid sequences replaced),
    refuse input longer than the allowed length, HTML-escape, then strip. */
module Security {

  import opened Wrappers
  import opened Text

  type Byte = b: int | 0 <= b < 256

  /** Python's `Union[str, bytes]` argument. */
  datatype UserInput = TextInput(text: string) | BytesInput(bytes: seq<Byte>)

  /** U+FFFD, what `errors='replace'` puts in place of an ill-formed sequence. */
  const Replacement: char := '\U{FFFD}'

  // ---------------------------------------------------------------------------
  // UTF-8 decoding with replacement (Unicode's "maximal subpart" practice,
  // which Python's decoder follows)
  // ---------------------------------------------------------------------------

  /** How many bytes the sequence that `b0` starts should have; 0 when `b0`
      cannot start a well-formed sequence. */
  function SequenceLength(b0: Byte): nat
  {
    if b0 < 0x80 then 1
    else if 0xC2 <= b0 <= 0xDF then 2
    else if 0xE0 <= b0 <= 0xEF then 3
    else if 0xF0 <= b0 <= 0xF4 then 4
    else 0
  }

  /** Whether `b` may stand at position `j` (1, 2 or 3) after lead byte `b0`. */
  predicate ContinuationOk(b0: Byte, j: nat, b: Byte)
  {
    if j == 1 then
      (if b0 == 0xE0 then 0xA0 <= b <= 0xBF
       else if b0 == 0xED then 0x80 <= b <= 0x9F
       else if b0 == 0xF0 then 0x90 <= b <= 0xBF
       else if b0 == 0xF4 then 0x80 <= b <= 0x8F
       else 0x80 <= b <= 0xBF)
    else 0x80 <= b <= 0xBF
  }

  /** The byte `m` places after the lead byte `bytes[i]` exists and may
      continue its sequence. */
  predicate ContinuesAt(bytes: seq<Byte>, i: nat, m: nat)
    requires i < |bytes|
  {
    i + m < |bytes| && ContinuationOk(bytes[i], m, bytes[i + m])
  }

  /** How many bytes after `bytes[i]`, up to `need - 1`, continue its
      sequence; positions before `j` are already known to. */
  function ValidTail(bytes: seq<Byte>, i: nat, need: nat, j: nat): (v: nat)
    requires i < |bytes| && 1 <= j <= need
    requires forall m :: 1 <= m < j ==> ContinuesAt(bytes, i, m)
    ensures j - 1 <= v <= need - 1
    ensures i + v < |bytes|
    ensures forall m :: 1 <= m <= v ==> ContinuesAt(bytes, i, m)
    decreases need - j
  {
    if j < need && ContinuesAt(bytes, i, j)
    then ValidTail(bytes, i, need, j + 1)
    else
      assert j == 1 || ContinuesAt(bytes, i, j - 1);
      j - 1
  }

  /** The code point of a complete sequence of `need` bytes at `i`. */
  function CodePoint(bytes: seq<Byte>, i: nat, need: nat): (c: char)
    requires 2 <= need <= 4 && i + need <= |bytes|
    requires SequenceLength(bytes[i]) == need
    requires forall m :: 1 <= m < need ==> ContinuesAt(bytes, i, m)
  {
    var b0: int := bytes[i];
    var b1: int := bytes[i + 1];
    assert ContinuesAt(bytes, i, 1);
    if need == 2 then
      ((b0 - 0xC0) * 64 + (b1 - 0x80)) as char
    else
      var b2: int := bytes[i + 2];
      assert ContinuesAt(bytes, i, 1) && ContinuesAt(bytes, i, 2);
      if need == 3 then
        ((b0 - 0xE0) * 4096 + (b1 - 0x80) * 64 + (b2 - 0x80)) as char
      else
        var b3: int := bytes[i + 3];
        assert ContinuesAt(bytes, i, 3);
        ((b0 - 0xF0) * 262144 + (b1 - 0x80) * 4096 + (b2 - 0x80) * 64 + (b3 - 0x80)) as char
  }

  /** The character decoded at `i` and how many bytes it used. */
  function DecodeOne(bytes: seq<Byte>, i: nat): (r: (char, nat))
    requires i < |bytes|
    ensures 1 <= r.1 <= |bytes| - i
  {
    var b0 := bytes[i];
    var need := SequenceLength(b0);
    if need == 1 then (b0 as char, 1)
    else if need == 0 then (Replacement, 1)
    else
      var v := ValidTail(bytes, i, need, 1);
      if v == need - 1 then (CodePoint(bytes, i, need), need)
      else (Replacement, 1 + v)
  }

  function DecodeFrom(bytes: seq<Byte>, i: nat): (s: string)
    requires i <= |bytes|
    ensures |s| <= |bytes| - i
    decreases |bytes| - i
  {
    if i == |bytes| then []
    else
      var (c, k) := DecodeOne(bytes, i);
      [c] + DecodeFrom(bytes, i + k)
  }

  /** Python's `bytes.decode('utf-8', errors='replace')`. */
  function Utf8Decode(bytes: seq<Byte>): (s: string)
  {
    DecodeFrom(bytes, 0)
  }

  /** ASCII bytes decode one-for-one to the same characters. */
  lemma {:induction false} AsciiDecodesVerbatim(bytes: seq<Byte>, i: nat)
    requires i <= |bytes|
    requires forall k :: 0 <= k < |bytes| ==> bytes[k] < 0x80
    ensures |DecodeFrom(bytes, i)| == |bytes| - i
    ensures forall k :: 0 <= k < |bytes| - i ==> DecodeFrom(bytes, i)[k] == bytes[i + k] as char
    decreases |bytes| - i
  {
    if i < |bytes| {
      AsciiDecodesVerbatim(bytes, i + 1);
    }
  }

  /** A byte that cannot start a sequence becomes one replacement character. */
  lemma StrayByteIsReplaced(bytes: seq<Byte>, i: nat)
    requires i < |bytes| && SequenceLength(bytes[i]) == 0
    ensures DecodeFrom(bytes, i) == [Replacement] + DecodeFrom(bytes, i + 1)
  {
  }

  // ---------------------------------------------------------------------------
  // HTML escaping (Python's `html.escape(s, quote=True)`)
  // ---------------------------------------------------------------------------

  predicate IsMarkup(c: char)
  {
    c == '<' || c == '>' || c == '"' || c == '\''
  }

  function EscapeChar(c: char): string
  {
    if c == '&' then "&amp;"
    else if c == '<' then "&lt;"
    else if c == '>' then "&gt;"
    else if c == '"' then "&quot;"
    else if c == '\'' then "&#x27;"
    else [c]
  }

  function HtmlEscape(s: string): string
  {
    if s == [] then [] else EscapeChar(s[0]) + HtmlEscape(s[1..])
  }

  /** The inverse of `HtmlEscape`: reads back the five entities it writes. */
  function Unescape(t: string): string
    decreases |t|
  {
    if t == [] then []
    else if "&amp;" <= t then ['&'] + Unescape(t[5..])
    else if "&lt;" <= t then ['<'] + Unescape(t[4..])
    else if "&gt;" <= t then ['>'] + Unescape(t[4..])
    else if "&quot;" <= t then ['"'] + Unescape(t[6..])
    else if "&#x27;" <= t then ['\''] + Unescape(t[6..])
    else [t[0]] + Unescape(t[1..])
  }

  /** No raw `<`, `>`, `"` or `'` anywhere in `t`. */
  predicate MarkupFree(t: string)
  {
    forall i :: 0 <= i < |t| ==> !IsMarkup(t[i])
  }

  /** Position `i` of `t` starts one of the five entities `HtmlEscape` writes. */
  predicate EntityAt(t: string, i: nat)
    requires i <= |t|
  {
    "&amp;" <= t[i..] || "&lt;" <= t[i..] || "&gt;" <= t[i..] || "&quot;" <= t[i..] || "&#x27;" <= t[i..]
  }

  /** Every `&` in `t` starts an entity: no raw ampersand is left. */
  predicate EntitiesOnly(t: string)
  {
    forall i :: 0 <= i < |t| && t[i] == '&' ==> EntityAt(t, i)
  }

  lemma {:induction false} EscapeAppend(a: string, b: string)
    ensures HtmlEscape(a + b) == HtmlEscape(a) + HtmlEscape(b)
  {
    if a != [] {
      assert (a + b)[0] == a[0] && (a + b)[1..] == a[1..] + b;
      EscapeAppend(a[1..], b);
    } else {
      assert a + b == b;
    }
  }

  lemma UnescapeOne(c: char, rest: string)
    ensures Unescape(EscapeChar(c) + rest) == [c] + Unescape(rest)
  {
    var e := EscapeChar(c);
    var t := e + rest;
    assert t[..|e|] == e && t[|e|..] == rest;
    if c == '&' {
    } else if c == '<' || c == '>' {
      assert t[1] == e[1] && t[2] == e[2];
    } else if c == '"' || c == '\'' {
      assert t[1] == e[1];
    } else {
      assert t[0] == c;
    }
  }

  /** Escaping loses nothing: unescaping gives the original text back. */
  lemma {:induction false} EscapeRoundTrip(s: string)
    ensures Unescape(HtmlEscape(s)) == s
  {
    if s != [] {
      UnescapeOne(s[0], HtmlEscape(s[1..]));
      EscapeRoundTrip(s[1..]);
    }
  }

  /** Escaping leaves no raw markup character. */
  lemma {:induction false} EscapeIsMarkupFree(s: string)
    ensures MarkupFree(HtmlEscape(s))
  {
    if s != [] {
      EscapeIsMarkupFree(s[1..]);
      var e := EscapeChar(s[0]);
      assert MarkupFree(e);
      assert HtmlEscape(s) == e + HtmlEscape(s[1..]);
    }
  }

  /** Every ampersand escaping writes starts an entity. */
  lemma {:induction false} EscapeEntitiesOnly(s: string)
    ensures EntitiesOnly(HtmlEscape(s))
  {
    if s != [] {
      EscapeEntitiesOnly(s[1..]);
      var e := EscapeChar(s[0]);
      var rest := HtmlEscape(s[1..]);
      var t := e + rest;
      assert HtmlEscape(s) == t;
      forall i | 0 <= i < |t| && t[i] == '&' ensures EntityAt(t, i) {
        if i < |e| {
          assert i == 0 && t[..|e|] == e;
        } else {
          assert t[i..] == rest[i - |e|..];
          assert rest[i - |e|] == '&';
        }
      }
    }
  }

  /** A suffix of a markup-free text whose ampersands start entities is one too. */
  lemma SuffixEntitiesOnly(t: string, n: nat)
    requires n <= |t| && MarkupFree(t) && EntitiesOnly(t)
    ensures MarkupFree(t[n..]) && EntitiesOnly(t[n..])
  {
    var u := t[n..];
    forall j | 0 <= j < |u| && u[j] == '&' ensures EntityAt(u, j) {
      assert u[j] == t[n + j] && u[j..] == t[n + j..];
    }
    forall j | 0 <= j < |u| ensures !IsMarkup(u[j]) {
      assert u[j] == t[n + j];
    }
  }

  /** How `Unescape` reads the head of a markup-free text whose ampersands
      start entities: one escaped character `c` spelt by the first `n`
      characters. */
  lemma UnescapeHead(t: string) returns (n: nat, c: char)
    requires t != [] && MarkupFree(t) && EntitiesOnly(t)
    ensures 1 <= n <= |t| && t[..n] == EscapeChar(c)
    ensures Unescape(t) == [c] + Unescape(t[n..])
  {
    if "&amp;" <= t { n, c := 5, '&'; }
    else if "&lt;" <= t { n, c := 4, '<'; }
    else if "&gt;" <= t { n, c := 4, '>'; }
    else if "&quot;" <= t { n, c := 6, '"'; }
    else if "&#x27;" <= t { n, c := 6, '\''; }
    else {
      n, c := 1, t[0];
      assert t[0] != '&' by { assert !EntityAt(t, 0); assert t[0..] == t; }
      assert !IsMarkup(t[0]);
    }
  }

  /** The converse of the round trip: a markup-free text whose ampersands
      all start entities is the escape of what it unescapes to. So a text is
      an escaped text exactly when it has these two properties. */
  lemma {:induction false} UnescapeRoundTrip(t: string)
    requires MarkupFree(t) && EntitiesOnly(t)
    ensures HtmlEscape(Unescape(t)) == t
    decreases |t|
  {
    if t != [] {
      var n, c := UnescapeHead(t);
      var u := Unescape(t[n..]);
      SuffixEntitiesOnly(t, n);
      UnescapeRoundTrip(t[n..]);
      assert ([c] + u)[0] == c && ([c] + u)[1..] == u;
      assert HtmlEscape([c] + u) == EscapeChar(c) + HtmlEscape(u);
      assert t == t[..n] + t[n..];
    }
  }

  /** Escaping never touches whitespace and never produces whitespace at the
      edge of an escaped character. */
  lemma EscapeEdges(c: char)
    ensures IsSpace(c) ==> EscapeChar(c) == [c]
    ensures !IsSpace(c) ==>
      |EscapeChar(c)| >= 1 && !IsSpace(EscapeChar(c)[0]) && !IsSpace(EscapeChar(c)[|EscapeChar(c)| - 1])
  {
  }

  lemma {:induction false} TrimLeftEscape(s: string)
    ensures TrimLeft(HtmlEscape(s)) == HtmlEscape(TrimLeft(s))
  {
    if s != [] {
      EscapeEdges(s[0]);
      if IsSpace(s[0]) {
        TrimLeftEscape(s[1..]);
        assert HtmlEscape(s) == [s[0]] + HtmlEscape(s[1..]);
        assert (([s[0]] + HtmlEscape(s[1..]))[1..]) == HtmlEscape(s[1..]);
      } else {
        assert HtmlEscape(s)[0] == EscapeChar(s[0])[0];
      }
    }
  }

  lemma {:induction false} TrimRightEscape(s: string)
    ensures TrimRight(HtmlEscape(s)) == HtmlEscape(TrimRight(s))
    decreases |s|
  {
    if s != [] {
      var n := |s| - 1;
      var c := s[n];
      assert s == s[..n] + [c];
      EscapeAppend(s[..n], [c]);
      assert HtmlEscape([c]) == EscapeChar(c) + HtmlEscape([]);
      var e := HtmlEscape(s[..n]) + EscapeChar(c);
      assert HtmlEscape(s) == e;
      EscapeEdges(c);
      if IsSpace(c) {
        TrimRightEscape(s[..n]);
        assert e[..|e| - 1] == HtmlEscape(s[..n]);
        assert s[..|s| - 1] == s[..n];
      } else {
        assert e[|e| - 1] == EscapeChar(c)[|EscapeChar(c)| - 1];
      }
    }
  }

  /** Escaping and stripping commute: stripping the escaped text is escaping
      the stripped text. */
  lemma StripEscapeCommute(s: string)
    ensures Strip(HtmlEscape(s)) == HtmlEscape(Strip(s))
  {
    TrimLeftEscape(s);
    TrimRightEscape(TrimLeft(s));
  }

  // ---------------------------------------------------------------------------
  // sanitizeInput
  // ---------------------------------------------------------------------------

  /** What stripping the escaped text guarantees. */
  lemma EscapedTextProperties(text: string)
    ensures Stripped(Strip(HtmlEscape(text))) && MarkupFree(Strip(HtmlEscape(text)))
    ensures EntitiesOnly(Strip(HtmlEscape(text)))
    ensures Unescape(Strip(HtmlEscape(text))) == Strip(text)
  {
    var e := HtmlEscape(text);
    StripSpec(e);
    EscapeIsMarkupFree(text);
    StripKeepsMarkupFree(e);
    StripEscapeCommute(text);
    EscapeRoundTrip(Strip(text));
    EscapeEntitiesOnly(Strip(text));
  }

  lemma StripKeepsMarkupFree(t: string)
    requires MarkupFree(t)
    ensures MarkupFree(Strip(t))
  {
    StripSpec(t);
    var out := Strip(t);
    var i :| OccursAt(t, out, i);
    forall k | 0 <= k < |out| ensures !IsMarkup(out[k]) {
      assert out[k] == t[i + k];
    }
  }

  /** Decimal digits of `n`, as an f-string prints an int. */
  function NatToString(n: nat): (s: string)
    ensures |s| >= 1
  {
    if n < 10 then ["0123456789"[n]] else NatToString(n / 10) + ["0123456789"[n % 10]]
  }

  /** The text the length check and the escaping see. */
  function Decoded(input: UserInput): string
  {
    match input
    case TextInput(t) => t
    case BytesInput(b) => Utf8Decode(b)
  }

  /** `sanitizeInput(userInput, allowedLength)`; `None` as the limit makes the
      `>` comparison raise, as it does in Python. */
  function SanitizeInput(input: UserInput, allowedLength: Option<nat>): (r: Result<string>)
    ensures allowedLength.None? ==> r.Err? && r.error.TypeError?
    ensures allowedLength.Some? ==> (r.Ok? <==> |Decoded(input)| <= allowedLength.value)
    ensures allowedLength.Some? && r.Err? ==>
      r.error == ValueError("Input exceeds maximum length of " + NatToString(allowedLength.value) + " characters.")
    ensures r.Ok? ==> Stripped(r.value) && MarkupFree(r.value) && EntitiesOnly(r.value)
    ensures r.Ok? ==> Unescape(r.value) == Strip(Decoded(input))
  {
    var text := Decoded(input);
    if allowedLength.None? then
      Err(TypeError("'>' not supported between instances of 'int' and 'NoneType'"))
    else if |text| > allowedLength.value then
      Err(ValueError("Input exceeds maximum length of " + NatToString(allowedLength.value) + " characters."))
    else
      EscapedTextProperties(text);
      Ok(Strip(HtmlEscape(text)))
  }

  /** The contract of `SanitizeInput` leaves one possible output: the escape
      of the stripped input. */
  lemma SanitizedTextIsDetermined(input: UserInput, t: string)
    requires MarkupFree(t) && EntitiesOnly(t) && Unescape(t) == Strip(Decoded(input))
    ensures t == HtmlEscape(Strip(Decoded(input)))
  {
    UnescapeRoundTrip(t);
  }

  /** The cap is a rejection, never a truncation, and is checked on the raw
      text: a text of exactly the allowed length passes even when escaping
      makes it longer. */
  lemma CapIsCheckedBeforeEscaping()
    ensures SanitizeInput(TextInput("<"), Some(1)) == Ok("&lt;")
    ensures SanitizeInput(TextInput("<<"), Some(1)).Err?
  {
    assert HtmlEscape("<") == "&lt;";
    assert Strip("&lt;") == "&lt;" by { StrippedIsFixed("&lt;"); }
  }

  /** Text with no `&` and no markup character is escaped to itself. */
  lemma {:induction false} EscapePlainIsIdentity(s: string)
    requires forall k :: 0 <= k < |s| ==> !IsMarkup(s[k]) && s[k] != '&'
    ensures HtmlEscape(s) == s
  {
    if s != [] {
      EscapePlainIsIdentity(s[1..]);
    }
  }

  /** A tag around a plain name keeps the name and escapes its brackets. */
  lemma EscapeTag(name: string)
    requires forall k :: 0 <= k < |name| ==> !IsMarkup(name[k]) && name[k] != '&'
    ensures HtmlEscape("<" + name + ">") == "&lt;" + name + "&gt;"
  {
    EscapeAppend("<" + name, ">");
    EscapeAppend("<", name);
    EscapeSingle('<');
    EscapeSingle('>');
    EscapePlainIsIdentity(name);
  }

  /** One character escapes to its entity. */
  lemma EscapeSingle(c: char)
    ensures HtmlEscape([c]) == EscapeChar(c)
  {
    assert [c][1..] == [];
  }

  /** A tag is escaped, and a text of exactly the allowed length passes. */
  lemma ScriptTagIsEscaped(name: string)
    requires name == "script"
    ensures SanitizeInput(TextInput("<" + name + ">"), Some(8)) == Ok("&lt;" + name + "&gt;")
  {
    EscapeTag(name);
    StrippedIsFixed("&lt;" + name + "&gt;");
  }

  // The script example of the tests, cut into parts short enough for the
  // verifier to compare with the whole.

  lemma ScriptAlertParts()
    ensures "<script>alert('test')</script>" == "<script>" + "alert('test')" + "</script>"
    ensures "alert('test')" == "alert(" + "'test'" + ")"
  {
  }

  lemma EscapedScriptAlertParts()
    ensures "&lt;script&gt;alert(&#x27;test&#x27;)&lt;/script&gt;"
            == "&lt;script&gt;" + "alert(&#x27;test&#x27;)" + "&lt;/script&gt;"
  {
  }

  lemma EscapedCallParts()
    ensures "alert(&#x27;test&#x27;)" == "alert(" + "&#x27;test&#x27;" + ")"
  {
  }

  lemma TagParts()
    ensures "<script>" == "<" + "script" + ">" && "</script>" == "<" + "/script" + ">"
  {
  }

  lemma EscapedTagParts()
    ensures "&lt;script&gt;" == "&lt;" + "script" + "&gt;"
    ensures "&lt;/script&gt;" == "&lt;" + "/script" + "&gt;"
  {
  }

  lemma QuotedParts()
    ensures "'test'" == "'" + "test" + "'"
    ensures "&#x27;test&#x27;" == "&#x27;" + "test" + "&#x27;"
  {
  }

  /** Escaping distributes over a concatenation of three texts. */
  lemma EscapeAppend3(a: string, b: string, c: string)
    ensures HtmlEscape(a + b + c) == HtmlEscape(a) + HtmlEscape(b) + HtmlEscape(c)
  {
    EscapeAppend(a + b, c);
    EscapeAppend(a, b);
  }

  /** A plain word between two characters keeps the word and escapes the two. */
  lemma EscapeBetween(open: char, word: string, close: char)
    requires forall k :: 0 <= k < |word| ==> !IsMarkup(word[k]) && word[k] != '&'
    ensures HtmlEscape([open] + word + [close]) == EscapeChar(open) + word + EscapeChar(close)
  {
    EscapeAppend([open] + word, [close]);
    EscapeAppend([open], word);
    EscapeSingle(open);
    EscapeSingle(close);
    EscapePlainIsIdentity(word);
  }

  /** `'test'` has both quotes escaped. */
  lemma EscapeQuotedTest()
    ensures HtmlEscape("'test'") == "&#x27;test&#x27;"
  {
    var q := '\'';
    assert "'test'" == [q] + "test" + [q];
    assert "&#x27;test&#x27;" == EscapeChar(q) + "test" + EscapeChar(q);
    EscapeBetween(q, "test", q);
  }

  /** The escape of the script example, assembled from its parts. */
  lemma EscapeScriptAlert()
    ensures HtmlEscape("<script>alert('test')</script>") == "&lt;script&gt;alert(&#x27;test&#x27;)&lt;/script&gt;"
  {
    ScriptAlertParts();
    EscapedScriptAlertParts();
    EscapedCallParts();
    TagParts();
    EscapedTagParts();
    QuotedParts();
    EscapeTag("script");
    EscapeTag("/script");
    EscapeQuotedTest();
    EscapePlainIsIdentity("alert(");
    EscapePlainIsIdentity(")");
    EscapeAppend3("alert(", "'test'", ")");
    EscapeAppend3("<script>", "alert('test')", "</script>");
  }

  /** A short text whose escape has no whitespace at its ends is sanitised
      to its escape. */
  lemma SanitizeShort(text: string, n: nat)
    requires |text| <= n && Stripped(HtmlEscape(text))
    ensures SanitizeInput(TextInput(text), Some(n)) == Ok(HtmlEscape(text))
  {
    StrippedIsFixed(HtmlEscape(text));
  }

  /** A text that begins and ends with non-space pieces is stripped. */
  lemma StrippedBetween(a: string, b: string, c: string)
    requires a != [] && c != [] && !IsSpace(a[0]) && !IsSpace(c[|c| - 1])
    ensures Stripped(a + b + c)
  {
    var t := a + b + c;
    assert t[0] == a[0] && t[|t| - 1] == c[|c| - 1];
  }

  lemma EscapedScriptAlertIsStripped()
    ensures Stripped("&lt;script&gt;alert(&#x27;test&#x27;)&lt;/script&gt;")
  {
    EscapedScriptAlertParts();
    var a, c := "&lt;script&gt;", "&lt;/script&gt;";
    assert a[0] == '&' && c[|c| - 1] == ';';
    StrippedBetween(a, "alert(&#x27;test&#x27;)", c);
  }

  /** The script example of the tests, escaped in full within a limit of 100. */
  lemma ScriptAlertIsEscaped()
    ensures SanitizeInput(TextInput("<script>alert('test')</script>"), Some(100))
            == Ok("&lt;script&gt;alert(&#x27;test&#x27;)&lt;/script&gt;")
  {
    EscapeScriptAlert();
    EscapedScriptAlertIsStripped();
    SanitizeShort("<script>alert('test')</script>", 100);
  }

  /** The length limit of the tests: six characters, given as text or as
      bytes, exceed a limit of 5. */
  lemma TooLongIsRejected()
    ensures SanitizeInput(TextInput("123456"), Some(5)) == Err(ValueError("Input exceeds maximum length of 5 characters."))
    ensures SanitizeInput(BytesInput([0x31, 0x32, 0x33, 0x34, 0x35, 0x36]), Some(5))
            == Err(ValueError("Input exceeds maximum length of 5 characters."))
  {
    AsciiDecodesVerbatim([0x31, 0x32, 0x33, 0x34, 0x35, 0x36], 0);
    assert NatToString(5) == "5";
  }
}
