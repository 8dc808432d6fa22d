/** The chat front end's free-text request parser and the guard on sending a message.
    `parseUserInput` reads business, product and audience with keyword patterns, tone
    and goal with prioritised keyword tests, custom hashtags with a `#word` pattern, and
    shortens the description; `handleSendMessage` ignores blank messages and messages
    sent while posts are being generated. */
module ChatGenerator {
  import opened Text
  import opened Posts

  // ---------------------------------------------------------------------------------
  // The keyword patterns `/kw\s+([a-zA-Z0-9\s&]+?)(?:\s|$|,|\.)/i`
  // ---------------------------------------------------------------------------------

  /** A character of the pattern's class other than whitespace. */
  predicate IsWordChar(c: char) {
    'a' <= c <= 'z' || 'A' <= c <= 'Z' || '0' <= c <= '9' || c == '&'
  }

  /** The length of the whitespace run of `s` starting at `i`. */
  function WhitespaceRun(s: string, i: nat): (n: nat)
    requires i <= |s|
    ensures i + n <= |s|
    ensures forall k :: i <= k < i + n ==> IsWhitespace(s[k])
    ensures i + n == |s| || !IsWhitespace(s[i + n])
    decreases |s| - i
  {
    if i < |s| && IsWhitespace(s[i]) then 1 + WhitespaceRun(s, i + 1) else 0
  }

  /** The length of the run of word characters of `s` starting at `i`. */
  function WordRun(s: string, i: nat): (n: nat)
    requires i <= |s|
    ensures i + n <= |s|
    ensures forall k :: i <= k < i + n ==> IsWordChar(s[k])
    ensures i + n == |s| || !IsWordChar(s[i + n])
    decreases |s| - i
  {
    if i < |s| && IsWordChar(s[i]) then 1 + WordRun(s, i + 1) else 0
  }

  /** The keyword occurs at `p`, ignoring ASCII case (the patterns carry the `i` flag). */
  predicate KeywordAt(s: string, keyword: string, p: nat) {
    p + |keyword| <= |s| && Lower(s[p..p + |keyword|]) == keyword
  }

  /** What the group captures when the pattern matches at `p`, following the backtracking
      order of the greedy `\s+` and the lazy group: the word after the keyword when a
      terminator (end, whitespace, `,` or `.`) follows it, otherwise one whitespace
      character when the run after the keyword has room for it, otherwise no match. */
  function CaptureAt(s: string, keyword: string, p: nat): (r: Option<string>)
    ensures r.Some? ==> KeywordAt(s, keyword, p)
    ensures r.Some? ==> |r.value| >= 1
    ensures r.Some? ==>
      (forall k :: 0 <= k < |r.value| ==> IsWordChar(r.value[k]))
      || (|r.value| == 1 && IsWhitespace(r.value[0]))
  {
    if !KeywordAt(s, keyword, p) then None
    else
      var q := p + |keyword|;
      var n := WhitespaceRun(s, q);
      var w := q + n;
      var m := WordRun(s, w);
      if n == 0 then None
      else if m > 0 && (w + m == |s| || IsWhitespace(s[w + m]) || s[w + m] == ',' || s[w + m] == '.') then
        Some(s[w..w + m])
      else if n >= 2 && (w == |s| || s[w] == ',' || s[w] == '.') then Some([s[w - 1]])
      else if n >= 3 then Some([s[w - 2]])
      else None
  }

  /** The first position at or after `from` where the pattern matches, or -1. */
  function MatchFrom(s: string, keyword: string, from: nat): (r: int)
    requires from <= |s| + 1
    ensures r == -1 || (from <= r <= |s| && CaptureAt(s, keyword, r).Some?)
    ensures forall p :: from <= p && (r < 0 || p < r) ==> CaptureAt(s, keyword, p).None?
    decreases |s| + 1 - from
  {
    if from > |s| then
      assert forall p :: from <= p ==> !KeywordAt(s, keyword, p);
      -1
    else if CaptureAt(s, keyword, from).Some? then from
    else MatchFrom(s, keyword, from + 1)
  }

  /** `input.match(pattern)`'s group: the capture at the leftmost match, if any. */
  function FirstCapture(s: string, keyword: string): (r: Option<string>)
    ensures r.Some? ==>
      (forall k :: 0 <= k < |r.value| ==> IsWordChar(r.value[k]))
      || (|r.value| == 1 && IsWhitespace(r.value[0]))
  {
    var p := MatchFrom(s, keyword, 0);
    if p < 0 then None else CaptureAt(s, keyword, p)
  }

  const StopWords: seq<string> := ["my", "the", "a", "an"]

  /** The filter on a capture: longer than two characters once trimmed, and not a stop word. */
  predicate Accepted(capture: Option<string>) {
    capture.Some? && |Trim(capture.value)| > 2 && Lower(Trim(capture.value)) !in StopWords
  }

  /** An accepted capture is a word of the pattern's class: whitespace-only captures
      never pass the filter. */
  lemma AcceptedIsWord(capture: Option<string>)
    requires Accepted(capture)
    requires capture.Some? ==>
      (forall k :: 0 <= k < |capture.value| ==> IsWordChar(capture.value[k]))
      || (|capture.value| == 1 && IsWhitespace(capture.value[0]))
    ensures Trim(capture.value) == capture.value
    ensures |capture.value| > 2 && forall k :: 0 <= k < |capture.value| ==> IsWordChar(capture.value[k])
  {
    var v := capture.value;
    SingleWhitespaceTrimsAway(v);
    assert |Trim(v)| > 2;
    assert forall k :: 0 <= k < |v| ==> IsWordChar(v[k]);
    WordHasNoWhitespace(v);
    TrimOfNoWhitespace(v);
  }

  /** The pattern's word characters are never white space. */
  lemma WordHasNoWhitespace(v: string)
    requires forall k :: 0 <= k < |v| ==> IsWordChar(v[k])
    ensures NoWhitespace(v)
  {
  }

  /** A lone white-space capture trims to nothing. */
  lemma SingleWhitespaceTrimsAway(v: string)
    ensures |v| == 1 && IsWhitespace(v[0]) ==> Trim(v) == []
  {
    if |v| == 1 && IsWhitespace(v[0]) {
      assert v[1..] == [];
      assert TrimStart(v) == [];
    }
  }

  const BusinessKeywords: seq<string> :=
    ["for", "about", "business", "company", "brand", "startup", "shop", "restaurant", "agency"]
  const ProductKeywords: seq<string> :=
    ["product", "service", "about", "create", "generate", "new", "our"]
  const AudienceKeywords: seq<string> :=
    ["for", "targeting", "audience", "customers", "professionals", "businesses"]

  /** The field the extraction loop settles on: the trimmed capture of the first pattern,
      in list order, whose leftmost match passes the filter, or `''`. */
  function FirstAccepted(input: string, keywords: seq<string>): string
    decreases |keywords|
  {
    if keywords == [] then ""
    else if Accepted(FirstCapture(input, keywords[0])) then Trim(FirstCapture(input, keywords[0]).value)
    else FirstAccepted(input, keywords[1..])
  }

  /** The field is empty exactly when no pattern's first match passes the filter, and is
      otherwise the capture of the first pattern whose match does. */
  lemma {:induction false} FirstAcceptedSpec(input: string, keywords: seq<string>, i: nat)
    requires i < |keywords| && Accepted(FirstCapture(input, keywords[i]))
    requires forall j :: 0 <= j < i ==> !Accepted(FirstCapture(input, keywords[j]))
    ensures FirstAccepted(input, keywords) == Trim(FirstCapture(input, keywords[i]).value)
    decreases i
  {
    if i > 0 {
      assert !Accepted(FirstCapture(input, keywords[0]));
      assert forall j :: 0 <= j < i - 1 ==> keywords[1..][j] == keywords[j + 1];
      FirstAcceptedSpec(input, keywords[1..], i - 1);
    }
  }

  lemma {:induction false} FirstAcceptedEmptyIff(input: string, keywords: seq<string>)
    ensures FirstAccepted(input, keywords) == "" <==>
      forall j :: 0 <= j < |keywords| ==> !Accepted(FirstCapture(input, keywords[j]))
    decreases |keywords|
  {
    if keywords != [] {
      FirstAcceptedEmptyIff(input, keywords[1..]);
      assert forall j :: 1 <= j < |keywords| ==> keywords[j] == keywords[1..][j - 1];
      if Accepted(FirstCapture(input, keywords[0])) {
        assert |FirstAccepted(input, keywords)| > 2;
      } else {
        assert FirstAccepted(input, keywords) == FirstAccepted(input, keywords[1..]);
      }
    }
  }

  /** Every extracted field is empty or a word longer than two characters. */
  lemma {:induction false} FirstAcceptedIsWord(input: string, keywords: seq<string>)
    ensures var r := FirstAccepted(input, keywords);
      r == "" || (|r| > 2 && forall k :: 0 <= k < |r| ==> IsWordChar(r[k]))
    decreases |keywords|
  {
    if keywords != [] {
      var c := FirstCapture(input, keywords[0]);
      if Accepted(c) {
        var p := MatchFrom(input, keywords[0], 0);
        AcceptedIsWord(c);
      } else {
        FirstAcceptedIsWord(input, keywords[1..]);
      }
    }
  }

  /** The pattern loop: try each pattern's first match until one passes the filter. */
  method ExtractField(input: string, keywords: seq<string>) returns (field: string)
    ensures field == FirstAccepted(input, keywords)
  {
    field := "";
    var i := 0;
    while i < |keywords|
      invariant 0 <= i <= |keywords|
      invariant field == ""
      invariant FirstAccepted(input, keywords) == FirstAccepted(input, keywords[i..])
    {
      var capture := FirstCapture(input, keywords[i]);
      assert keywords[i..][1..] == keywords[i + 1..];
      if Accepted(capture) {
        field := Trim(capture.value);
        return;
      }
      i := i + 1;
    }
  }

  /** `for` heads both the business and the audience lists: when its capture is accepted
      the two fields are the same word. */
  lemma ForFillsBusinessAndAudience(input: string)
    requires Accepted(FirstCapture(input, "for"))
    ensures FirstAccepted(input, BusinessKeywords) == FirstAccepted(input, AudienceKeywords)
    ensures FirstAccepted(input, BusinessKeywords) == Trim(FirstCapture(input, "for").value)
  {
  }

  /** A pattern whose first match is rejected is passed over as a whole, however many
      acceptable matches follow that one. */
  lemma RejectedPatternSkipped(input: string, keyword: string, rest: seq<string>)
    requires !Accepted(FirstCapture(input, keyword))
    ensures FirstAccepted(input, [keyword] + rest) == FirstAccepted(input, rest)
  {
    assert ([keyword] + rest)[1..] == rest;
  }

  /** The keyword, one white-space character, then a word ended by white space, a comma,
      a full stop or the end: the lazy group stops at the end of the word. */
  lemma CaptureOfDelimitedWord(s: string, keyword: string, p: nat, word: string)
    requires KeywordAt(s, keyword, p)
    requires p + |keyword| + 1 + |word| <= |s| && IsWhitespace(s[p + |keyword|])
    requires s[p + |keyword| + 1..p + |keyword| + 1 + |word|] == word
    requires |word| > 0 && forall k :: 0 <= k < |word| ==> IsWordChar(word[k])
    requires var e := p + |keyword| + 1 + |word|;
      e == |s| || IsWhitespace(s[e]) || s[e] == ',' || s[e] == '.'
    ensures CaptureAt(s, keyword, p) == Some(word)
  {
    var q := p + |keyword|;
    var w := q + 1;
    assert forall k :: w <= k < w + |word| ==> IsWordChar(s[k]) by {
      forall k | w <= k < w + |word| ensures IsWordChar(s[k]) {
        assert s[k] == word[k - w];
      }
    }
    assert !IsWhitespace(s[w]) by { assert s[w] == word[0]; WordHasNoWhitespace(word); }
    assert WhitespaceRun(s, w) == 0;
    assert WhitespaceRun(s, q) == 1 + WhitespaceRun(s, w);
    var e := w + |word|;
    assert e < |s| ==> !IsWordChar(s[e]);
    assert WordRun(s, w) == |word|;
  }

  const SampleRequest := "for the Acme for Bolt"

  lemma SampleFirstCapture()
    ensures FirstCapture(SampleRequest, "for") == Some("the")
  {
    var s := SampleRequest;
    assert KeywordAt(s, "for", 0) by { assert s[0..3] == "for"; assert Lower("for") == "for"; }
    assert s[4..7] == "the";
    CaptureOfDelimitedWord(s, "for", 0, "the");
  }

  lemma SampleLaterCapture()
    ensures CaptureAt(SampleRequest, "for", 13) == Some("Bolt")
  {
    var s := SampleRequest;
    assert KeywordAt(s, "for", 13) by { assert s[13..16] == "for"; assert Lower("for") == "for"; }
    assert s[17..21] == "Bolt";
    CaptureOfDelimitedWord(s, "for", 13, "Bolt");
  }

  /** In "for the Acme for Bolt" the `for` pattern matches first at "the", a stop word,
      so it yields nothing even though its later match "Bolt" would pass the filter. */
  lemma OnlyTheFirstMatchCounts()
    ensures Accepted(CaptureAt(SampleRequest, "for", 13))
    ensures FirstCapture(SampleRequest, "for") == Some("the")
    ensures FirstAccepted(SampleRequest, ["for"]) == ""
  {
    SampleFirstCapture();
    SampleLaterCapture();
    StopWordRejected();
    WordAccepted();
    RejectedPatternSkipped(SampleRequest, "for", []);
    assert ["for"] + [] == ["for"];
  }

  lemma StopWordRejected()
    ensures !Accepted(Some("the"))
  {
    TrimOfNoWhitespace("the");
    assert Lower("the") == "the";
  }

  lemma WordAccepted()
    ensures Accepted(Some("Bolt"))
  {
    var w := "Bolt";
    assert NoWhitespace(w);
    TrimOfNoWhitespace(w);
    assert |Lower(w)| == 4;
    assert forall k :: 0 <= k < |StopWords| ==> |StopWords[k]| < 4;
  }

  /** A word after the keyword, ended by a full stop, is captured. */
  lemma CaptureBeforeFullStop()
    ensures FirstCapture("for Acme.", "for") == Some("Acme")
  {
    var s := "for Acme.";
    assert KeywordAt(s, "for", 0) by { assert s[0..3] == "for"; assert Lower("for") == "for"; }
    assert s[4..8] == "Acme";
    CaptureOfDelimitedWord(s, "for", 0, "Acme");
  }

  // ---------------------------------------------------------------------------------
  // Tone and goal
  // ---------------------------------------------------------------------------------

  /** One rung of a prioritised keyword test: any keyword found selects the result. */
  datatype Rule<T> = Rule(result: T, keywords: seq<string>)

  predicate RuleFires<T>(rule: Rule<T>, text: string) {
    exists kw :: kw in rule.keywords && Contains(text, kw)
  }

  /** The result of the first rule that fires, or the default. */
  function FirstRule<T>(rules: seq<Rule<T>>, text: string, default: T): T
    decreases |rules|
  {
    if rules == [] then default
    else if RuleFires(rules[0], text) then rules[0].result
    else FirstRule(rules[1..], text, default)
  }

  /** A keyword of rule `i` decides the result unless an earlier rule fires. */
  lemma {:induction false} FirstRulePriority<T>(rules: seq<Rule<T>>, text: string, default: T, i: nat, kw: string)
    requires i < |rules| && kw in rules[i].keywords && Contains(text, kw)
    requires forall j :: 0 <= j < i ==> !RuleFires(rules[j], text)
    ensures FirstRule(rules, text, default) == rules[i].result
    decreases i
  {
    if i == 0 {
      assert RuleFires(rules[0], text);
    } else {
      assert !RuleFires(rules[0], text);
      assert forall j :: 0 <= j < i - 1 ==> rules[1..][j] == rules[j + 1];
      FirstRulePriority(rules[1..], text, default, i - 1, kw);
    }
  }

  /** With no keyword found anywhere the default is chosen. */
  lemma {:induction false} FirstRuleNone<T>(rules: seq<Rule<T>>, text: string, default: T)
    requires forall j :: 0 <= j < |rules| ==> !RuleFires(rules[j], text)
    ensures FirstRule(rules, text, default) == default
    decreases |rules|
  {
    if rules != [] {
      assert forall j :: 0 <= j < |rules| - 1 ==> rules[1..][j] == rules[j + 1];
      FirstRuleNone(rules[1..], text, default);
    }
  }

  /** When no rule yields the default, the default comes out exactly when no rule fires. */
  lemma {:induction false} FirstRuleDefaultIff<T>(rules: seq<Rule<T>>, text: string, default: T)
    requires forall j :: 0 <= j < |rules| ==> rules[j].result != default
    ensures FirstRule(rules, text, default) == default <==>
      forall j :: 0 <= j < |rules| ==> !RuleFires(rules[j], text)
    decreases |rules|
  {
    if rules != [] {
      assert forall j :: 0 <= j < |rules| - 1 ==> rules[1..][j] == rules[j + 1];
      FirstRuleDefaultIff(rules[1..], text, default);
      assert forall j :: 1 <= j < |rules| ==> rules[j] == rules[1..][j - 1];
    }
  }

  const ToneRules: seq<Rule<Tone>> := [
    Rule(Professional, ["professional", "business", "corporate", "linkedin"]),
    Rule(Humorous, ["funny", "humorous", "comedy"]),
    Rule(Inspirational, ["inspirational", "motivational", "uplifting"]),
    Rule(Bold, ["bold", "confident", "assertive"]),
    Rule(Minimalist, ["minimalist", "simple", "clean"]),
    Rule(Quirky, ["quirky", "unique", "different"]),
    Rule(Premium, ["premium", "luxury", "high-end"])]

  const GoalRules: seq<Rule<Goal>> := [
    Rule(Sales, ["sales", "buy", "purchase"]),
    Rule(Signups, ["signup", "register", "join"]),
    Rule(Awareness, ["awareness", "brand", "visibility"]),
    Rule(Shares, ["shares", "viral", "spread"]),
    Rule(Discovery, ["discovery", "learn", "find"])]

  /** The tone read from the lower-cased request. */
  function ClassifyTone(lower: string): Tone {
    FirstRule(ToneRules, lower, Playful)
  }

  /** The goal read from the lower-cased request. */
  function ClassifyGoal(lower: string): Goal {
    FirstRule(GoalRules, lower, Engagement)
  }

  /** A professional keyword wins over every other tone keyword. */
  lemma ProfessionalKeywordsWin(lower: string, kw: string)
    requires kw in ToneRules[0].keywords && Contains(lower, kw)
    ensures ClassifyTone(lower) == Professional
  {
    FirstRulePriority(ToneRules, lower, Playful, 0, kw);
  }

  /** "business" and "linkedin" are professional keywords. */
  lemma BusinessMeansProfessional(lower: string)
    requires Contains(lower, "business") || Contains(lower, "linkedin")
    ensures ClassifyTone(lower) == Professional
  {
    if Contains(lower, "business") {
      ProfessionalKeywordsWin(lower, "business");
    } else {
      ProfessionalKeywordsWin(lower, "linkedin");
    }
  }

  /** The tone is playful exactly when no tone keyword occurs. */
  lemma PlayfulIffNoKeyword(lower: string)
    ensures ClassifyTone(lower) == Playful <==> forall j :: 0 <= j < |ToneRules| ==> !RuleFires(ToneRules[j], lower)
  {
    FirstRuleDefaultIff(ToneRules, lower, Playful);
  }

  /** A sales keyword wins over every other goal keyword. */
  lemma SalesKeywordsWin(lower: string, kw: string)
    requires kw in GoalRules[0].keywords && Contains(lower, kw)
    ensures ClassifyGoal(lower) == Sales
  {
    FirstRulePriority(GoalRules, lower, Engagement, 0, kw);
  }

  /** The goal is engagement exactly when no goal keyword occurs. */
  lemma EngagementIffNoKeyword(lower: string)
    ensures ClassifyGoal(lower) == Engagement <==> forall j :: 0 <= j < |GoalRules| ==> !RuleFires(GoalRules[j], lower)
  {
    FirstRuleDefaultIff(GoalRules, lower, Engagement);
  }

  // ---------------------------------------------------------------------------------
  // Hashtags and description
  // ---------------------------------------------------------------------------------

  predicate IsAlphanumeric(c: char) {
    'a' <= c <= 'z' || 'A' <= c <= 'Z' || '0' <= c <= '9'
  }

  /** The length of the alphanumeric run at the start of `s`. */
  function AlphanumericPrefix(s: string): (n: nat)
    ensures n <= |s|
    ensures forall k :: 0 <= k < n ==> IsAlphanumeric(s[k])
    ensures n == |s| || !IsAlphanumeric(s[n])
  {
    if s != [] && IsAlphanumeric(s[0]) then 1 + AlphanumericPrefix(s[1..]) else 0
  }

  /** `input.match(/#[a-zA-Z0-9]+/g)` with each `#` stripped: the matches are found left to
      right, each taking the whole alphanumeric run after its `#`. */
  function ExtractHashtags(s: string): (r: seq<string>)
    ensures forall i :: 0 <= i < |r| ==> |r[i]| >= 1
    ensures forall i :: 0 <= i < |r| ==> forall k :: 0 <= k < |r[i]| ==> IsAlphanumeric(r[i][k])
    decreases |s|
  {
    if s == [] then []
    else if s[0] == '#' && |s| > 1 && IsAlphanumeric(s[1]) then
      var n := AlphanumericPrefix(s[1..]);
      [s[1..1 + n]] + ExtractHashtags(s[1 + n..])
    else ExtractHashtags(s[1..])
  }

  /** Text without `#` yields no tags. */
  lemma {:induction false} NoHashNoTags(s: string)
    requires '#' !in s
    ensures ExtractHashtags(s) == []
    decreases |s|
  {
    if s != [] {
      NoHashNoTags(s[1..]);
    }
  }

  /** Text without `#` before the first tag is skipped: the tags of `a + b` are those of `b`. */
  lemma {:induction false} ExtractHashtagsSkipPlain(a: string, b: string)
    requires '#' !in a
    ensures ExtractHashtags(a + b) == ExtractHashtags(b)
    decreases |a|
  {
    if a == [] {
      assert a + b == b;
    } else {
      assert (a + b)[0] == a[0] && (a + b)[1..] == a[1..] + b;
      ExtractHashtagsSkipPlain(a[1..], b);
    }
  }

  /** A `#` not followed by a letter or digit starts no tag and is skipped. */
  lemma ExtractHashtagsLoneHash(rest: string)
    requires rest == [] || !IsAlphanumeric(rest[0])
    ensures ExtractHashtags("#" + rest) == ExtractHashtags(rest)
  {
    assert ("#" + rest)[1..] == rest;
  }

  /** "Love it #eco" yields the single tag "eco". */
  lemma ExtractHashtagsAfterText()
    ensures ExtractHashtags("Love it #eco") == ["eco"]
  {
    assert "Love it #eco" == "Love it " + ("#" + "eco" + "");
    ExtractHashtagsSkipPlain("Love it ", "#" + "eco" + "");
    ExtractHashtagsOne("eco", "");
  }

  /** A tag written as `#tag` followed by a character that cannot continue it is read back
      whole, before the tags of what follows. */
  lemma ExtractHashtagsOne(tag: string, rest: string)
    requires |tag| >= 1 && forall k :: 0 <= k < |tag| ==> IsAlphanumeric(tag[k])
    requires rest == [] || !IsAlphanumeric(rest[0])
    ensures ExtractHashtags("#" + tag + rest) == [tag] + ExtractHashtags(rest)
  {
    var s := "#" + tag + rest;
    AlphanumericLength(tag, rest);
    assert s[1..] == tag + rest && s[1] == tag[0];
    TagStep(s);
    assert s[1..1 + |tag|] == tag;
    assert s[1 + |tag|..] == rest;
  }

  /** One step of the scan at a `#` that starts a tag. */
  lemma TagStep(s: string)
    requires |s| > 1 && s[0] == '#' && IsAlphanumeric(s[1])
    ensures var n := AlphanumericPrefix(s[1..]);
      ExtractHashtags(s) == [s[1..1 + n]] + ExtractHashtags(s[1 + n..])
  {
  }

  lemma {:induction false} AlphanumericLength(tag: string, rest: string)
    requires forall k :: 0 <= k < |tag| ==> IsAlphanumeric(tag[k])
    requires rest == [] || !IsAlphanumeric(rest[0])
    ensures AlphanumericPrefix(tag + rest) == |tag|
    decreases |tag|
  {
    if tag != [] {
      assert (tag + rest)[1..] == tag[1..] + rest;
      AlphanumericLength(tag[1..], rest);
    } else {
      assert tag + rest == rest;
    }
  }

  /** Tags written as `#t1 #t2 … #tn` are read back in order, each without its `#`. */
  lemma {:induction false} ExtractHashtagsRoundTrip(tags: seq<string>)
    requires forall i :: 0 <= i < |tags| ==> |tags[i]| >= 1
    requires forall i :: 0 <= i < |tags| ==> forall k :: 0 <= k < |tags[i]| ==> IsAlphanumeric(tags[i][k])
    ensures ExtractHashtags(HashtagText(tags)) == tags
    decreases |tags|
  {
    if tags != [] {
      var rest := if |tags| == 1 then "" else " " + HashtagText(tags[1..]);
      assert HashtagText(tags) == "#" + tags[0] + rest;
      ExtractHashtagsOne(tags[0], rest);
      ExtractHashtagsRoundTrip(tags[1..]);
      if |tags| > 1 {
        assert rest[1..] == HashtagText(tags[1..]);
        assert ExtractHashtags(rest) == ExtractHashtags(HashtagText(tags[1..]));
      }
      assert [tags[0]] + tags[1..] == tags;
    }
  }

  /** `#t1 #t2 … #tn`. */
  function HashtagText(tags: seq<string>): string
    decreases |tags|
  {
    if tags == [] then ""
    else if |tags| == 1 then "#" + tags[0]
    else "#" + tags[0] + " " + HashtagText(tags[1..])
  }

  /** Inputs longer than this are shortened for the description. */
  const DescriptionThreshold: nat := 50
  /** How many characters of a long input the description keeps. */
  const DescriptionKeep: nat := 100

  /** `input.length > 50 ? input.substring(0, 100) + '...' : input`. */
  function Description(input: string): (r: string)
    ensures |input| <= DescriptionThreshold ==> r == input
    ensures |input| > DescriptionThreshold ==>
      && EndsWith(r, "...")
      && StartsWith(r, input[..if |input| < DescriptionKeep then |input| else DescriptionKeep])
      && |r| == (if |input| < DescriptionKeep then |input| else DescriptionKeep) + 3
  {
    if |input| > DescriptionThreshold then
      var keep := if |input| < DescriptionKeep then |input| else DescriptionKeep;
      var r := input[..keep] + "...";
      assert r[..keep] == input[..keep];
      assert r[|r| - 3..] == "...";
      r
    else input
  }

  /** Inputs of 51 to 100 characters are kept whole, with "..." appended. */
  lemma DescriptionMiddleBand(input: string)
    requires DescriptionThreshold < |input| <= DescriptionKeep
    ensures Description(input) == input + "..."
  {
    assert input[..|input|] == input;
  }

  // ---------------------------------------------------------------------------------
  // parseUserInput
  // ---------------------------------------------------------------------------------

  /** The placeholder values the fallback branch compares with. */
  const PlaceholderBusiness := "Your Business"
  const PlaceholderProduct := "Product/Service"

  /** A rule of three keywords fires exactly when one of the three occurs. */
  lemma FiresOfThree<T>(rule: Rule<T>, text: string, a: string, b: string, c: string)
    requires rule.keywords == [a, b, c]
    ensures RuleFires(rule, text) <==> Contains(text, a) || Contains(text, b) || Contains(text, c)
  {
    if Contains(text, a) { assert a in rule.keywords; }
    if Contains(text, b) { assert b in rule.keywords; }
    if Contains(text, c) { assert c in rule.keywords; }
  }

  /** A rule of four keywords fires exactly when one of the four occurs. */
  lemma FiresOfFour<T>(rule: Rule<T>, text: string, a: string, b: string, c: string, d: string)
    requires rule.keywords == [a, b, c, d]
    ensures RuleFires(rule, text) <==> Contains(text, a) || Contains(text, b) || Contains(text, c) || Contains(text, d)
  {
    if Contains(text, a) { assert a in rule.keywords; }
    if Contains(text, b) { assert b in rule.keywords; }
    if Contains(text, c) { assert c in rule.keywords; }
    if Contains(text, d) { assert d in rule.keywords; }
  }

  /** The tone rules are tried in table order. */
  lemma ToneRulesOrder(lower: string)
    ensures ClassifyTone(lower) ==
      if RuleFires(ToneRules[0], lower) then Professional
      else if RuleFires(ToneRules[1], lower) then Humorous
      else if RuleFires(ToneRules[2], lower) then Inspirational
      else if RuleFires(ToneRules[3], lower) then Bold
      else if RuleFires(ToneRules[4], lower) then Minimalist
      else if RuleFires(ToneRules[5], lower) then Quirky
      else if RuleFires(ToneRules[6], lower) then Premium
      else Playful
  {
    var rs := ToneRules;
    assert rs[1..][0] == rs[1] && rs[1..][1..] == rs[2..];
    assert rs[2..][0] == rs[2] && rs[2..][1..] == rs[3..];
    assert rs[3..][0] == rs[3] && rs[3..][1..] == rs[4..];
    assert rs[4..][0] == rs[4] && rs[4..][1..] == rs[5..];
    assert rs[5..][0] == rs[5] && rs[5..][1..] == rs[6..];
    assert rs[6..][0] == rs[6] && rs[6..][1..] == [];
  }

  /** The goal rules are tried in table order. */
  lemma GoalRulesOrder(lower: string)
    ensures ClassifyGoal(lower) ==
      if RuleFires(GoalRules[0], lower) then Sales
      else if RuleFires(GoalRules[1], lower) then Signups
      else if RuleFires(GoalRules[2], lower) then Awareness
      else if RuleFires(GoalRules[3], lower) then Shares
      else if RuleFires(GoalRules[4], lower) then Discovery
      else Engagement
  {
    var rs := GoalRules;
    assert rs[1..][0] == rs[1] && rs[1..][1..] == rs[2..];
    assert rs[2..][0] == rs[2] && rs[2..][1..] == rs[3..];
    assert rs[3..][0] == rs[3] && rs[3..][1..] == rs[4..];
    assert rs[4..][0] == rs[4] && rs[4..][1..] == [];
  }

  /** The tone chain of `parseUserInput`: the first group of keywords found decides. */
  method ChooseTone(lower: string) returns (tone: Tone)
    ensures tone == ClassifyTone(lower)
  {
    ToneRulesOrder(lower);
    FiresOfFour(ToneRules[0], lower, "professional", "business", "corporate", "linkedin");
    FiresOfThree(ToneRules[1], lower, "funny", "humorous", "comedy");
    FiresOfThree(ToneRules[2], lower, "inspirational", "motivational", "uplifting");
    FiresOfThree(ToneRules[3], lower, "bold", "confident", "assertive");
    FiresOfThree(ToneRules[4], lower, "minimalist", "simple", "clean");
    FiresOfThree(ToneRules[5], lower, "quirky", "unique", "different");
    FiresOfThree(ToneRules[6], lower, "premium", "luxury", "high-end");
    tone := Playful;
    if Contains(lower, "professional") || Contains(lower, "business")
      || Contains(lower, "corporate") || Contains(lower, "linkedin") {
      tone := Professional;
    } else if Contains(lower, "funny") || Contains(lower, "humorous") || Contains(lower, "comedy") {
      tone := Humorous;
    } else if Contains(lower, "inspirational") || Contains(lower, "motivational")
      || Contains(lower, "uplifting") {
      tone := Inspirational;
    } else if Contains(lower, "bold") || Contains(lower, "confident") || Contains(lower, "assertive") {
      tone := Bold;
    } else if Contains(lower, "minimalist") || Contains(lower, "simple") || Contains(lower, "clean") {
      tone := Minimalist;
    } else if Contains(lower, "quirky") || Contains(lower, "unique") || Contains(lower, "different") {
      tone := Quirky;
    } else if Contains(lower, "premium") || Contains(lower, "luxury") || Contains(lower, "high-end") {
      tone := Premium;
    }
  }

  /** The goal chain of `parseUserInput`. */
  method ChooseGoal(lower: string) returns (goal: Goal)
    ensures goal == ClassifyGoal(lower)
  {
    GoalRulesOrder(lower);
    FiresOfThree(GoalRules[0], lower, "sales", "buy", "purchase");
    FiresOfThree(GoalRules[1], lower, "signup", "register", "join");
    FiresOfThree(GoalRules[2], lower, "awareness", "brand", "visibility");
    FiresOfThree(GoalRules[3], lower, "shares", "viral", "spread");
    FiresOfThree(GoalRules[4], lower, "discovery", "learn", "find");
    goal := Engagement;
    if Contains(lower, "sales") || Contains(lower, "buy") || Contains(lower, "purchase") {
      goal := Sales;
    } else if Contains(lower, "signup") || Contains(lower, "register") || Contains(lower, "join") {
      goal := Signups;
    } else if Contains(lower, "awareness") || Contains(lower, "brand") || Contains(lower, "visibility") {
      goal := Awareness;
    } else if Contains(lower, "shares") || Contains(lower, "viral") || Contains(lower, "spread") {
      goal := Shares;
    } else if Contains(lower, "discovery") || Contains(lower, "learn") || Contains(lower, "find") {
      goal := Discovery;
    }
  }

  /** The placeholder business name holds a space and the placeholder product a slash,
      neither of which an extracted field can hold, so the fallback branch of
      `parseUserInput` never runs. */
  lemma PlaceholderNeverExtracted(input: string, keywords: seq<string>)
    ensures FirstAccepted(input, keywords) != PlaceholderBusiness
    ensures FirstAccepted(input, keywords) != PlaceholderProduct
  {
    var w := FirstAccepted(input, keywords);
    FirstAcceptedIsWord(input, keywords);
    NotAWord(w, PlaceholderBusiness, 4);
    NotAWord(w, PlaceholderProduct, 7);
  }

  lemma NotAWord(w: string, s: string, i: nat)
    requires w == "" || forall k :: 0 <= k < |w| ==> IsWordChar(w[k])
    requires i < |s| && !IsWordChar(s[i])
    ensures w != s
  {
  }

  /** What `parseUserInput` reads from a request, field by field. */
  predicate IsParseOf(r: PostInput, input: string, platform: Platform) {
    && r.business == FirstAccepted(input, BusinessKeywords)
    && r.product == FirstAccepted(input, ProductKeywords)
    && r.audience == FirstAccepted(input, AudienceKeywords)
    && r.businessDescription == Description(input)
    && r.tone == ClassifyTone(Lower(input))
    && r.goal == ClassifyGoal(Lower(input))
    && r.customHashtags == ExtractHashtags(input)
    && r.platform == platform
  }

  /** `parseUserInput(input, platform)`. */
  method ParseUserInput(input: string, platform: Platform) returns (r: PostInput)
    ensures IsParseOf(r, input, platform)
  {
    var lowerInput := Lower(input);
    var business := ExtractField(input, BusinessKeywords);
    var product := ExtractField(input, ProductKeywords);
    var businessDescription := Description(input);
    var audience := ExtractField(input, AudienceKeywords);

    var tone := ChooseTone(lowerInput);
    var goal := ChooseGoal(lowerInput);

    var customHashtags := ExtractHashtags(input);

    PlaceholderNeverExtracted(input, BusinessKeywords);
    if business == PlaceholderBusiness && product == PlaceholderProduct {
      business := "Your Business";
      product := "Your Product/Service";
      businessDescription := input;
    }

    r := PostInput(business, businessDescription, product, platform, audience, tone, goal, customHashtags);
  }

  // ---------------------------------------------------------------------------------
  // The chat session
  // ---------------------------------------------------------------------------------

  /** A chat entry: the user's message, or the assistant's summary of what it read from
      that message for the chosen platform. */
  datatype ChatMessage = UserMessage(content: string) | Confirmation(platform: Platform, postData: PostInput)

  /** The chat's state: the transcript, the text box, and the request waiting for a platform. */
  class ChatSession {
    var messages: seq<ChatMessage>
    var inputValue: string
    var isGenerating: bool
    var showPlatformSelection: bool
    var pendingPrompt: string
    var selectedPlatform: Option<Platform>
    var parsedData: Option<PostInput>
    /** Whether the card for editing the parsed request is shown. */
    var showDataEdit: bool

    constructor()
      ensures messages == [] && inputValue == "" && !isGenerating && !showPlatformSelection
      ensures pendingPrompt == "" && selectedPlatform.None? && parsedData.None? && !showDataEdit
    {
      messages := [];
      inputValue := "";
      isGenerating := false;
      showPlatformSelection := false;
      pendingPrompt := "";
      selectedPlatform := None;
      parsedData := None;
      showDataEdit := false;
    }

    /** Typing in the text box. */
    method SetInputValue(value: string)
      modifies this
      ensures inputValue == value
      ensures messages == old(messages) && isGenerating == old(isGenerating)
      ensures showPlatformSelection == old(showPlatformSelection) && pendingPrompt == old(pendingPrompt)
      ensures selectedPlatform == old(selectedPlatform) && parsedData == old(parsedData)
      ensures showDataEdit == old(showDataEdit)
    {
      inputValue := value;
    }

    /** `handleSendMessage`: a blank message, or any message while posts are being
        generated, changes nothing; otherwise the message joins the transcript, becomes the
        pending request, the text box is cleared and the platform choice is offered. */
    method SendMessage()
      modifies this
      ensures Trim(old(inputValue)) == "" || old(isGenerating) ==>
        && messages == old(messages) && inputValue == old(inputValue)
        && pendingPrompt == old(pendingPrompt) && showPlatformSelection == old(showPlatformSelection)
      ensures Trim(old(inputValue)) != "" && !old(isGenerating) ==>
        && messages == old(messages) + [UserMessage(old(inputValue))]
        && pendingPrompt == old(inputValue)
        && inputValue == ""
        && showPlatformSelection
      ensures isGenerating == old(isGenerating)
      ensures selectedPlatform == old(selectedPlatform) && parsedData == old(parsedData)
      ensures showDataEdit == old(showDataEdit)
    {
      if Trim(inputValue) == "" || isGenerating {
        return;
      }
      messages := messages + [UserMessage(inputValue)];
      pendingPrompt := inputValue;
      inputValue := "";
      showPlatformSelection := true;
    }

    /** `handlePlatformSelection`: the pending request is parsed for the chosen platform and
        the reading is shown back to the user with the card for editing it. */
    method SelectPlatform(platform: Platform)
      modifies this
      ensures selectedPlatform == Some(platform) && !showPlatformSelection
      ensures parsedData.Some? && IsParseOf(parsedData.value, old(pendingPrompt), platform)
      ensures messages == old(messages) + [Confirmation(platform, parsedData.value)]
      ensures inputValue == old(inputValue) && isGenerating == old(isGenerating)
      ensures pendingPrompt == old(pendingPrompt) && showDataEdit
    {
      var postData := ParseUserInput(pendingPrompt, platform);
      ShowReading(platform, postData);
    }

    /** The state updates of `handlePlatformSelection` once the request is parsed. */
    method ShowReading(platform: Platform, postData: PostInput)
      modifies this
      ensures selectedPlatform == Some(platform) && !showPlatformSelection
      ensures parsedData == Some(postData) && showDataEdit
      ensures messages == old(messages) + [Confirmation(platform, postData)]
      ensures inputValue == old(inputValue) && isGenerating == old(isGenerating)
      ensures pendingPrompt == old(pendingPrompt)
    {
      selectedPlatform := Some(platform);
      showPlatformSelection := false;
      parsedData := Some(postData);
      messages := messages + [Confirmation(platform, postData)];
      showDataEdit := true;
    }
  }
}
