/** The decision logic of the text-generation client: which platform rule a prompt
    embeds, which length requirement and sampling options each prompt kind uses,
    how a backend reply becomes a string, and how the hashtag and call-to-action
    replies are parsed. The HTTP exchange itself is an input (`BackendReply`). */
module PerplexityClient {
  import opened Text
  import opened Posts

  /** The per-platform character target and focus phrase of the body prompt. */
  datatype PlatformLimit = PlatformLimit(chars: nat, focus: string)

  const InstagramLimit := PlatformLimit(125, "Hook in first 125 chars before 'more' cutoff")

  /** `platformLimits[platform] || platformLimits.instagram`. */
  function PlatformLimits(platform: string): (r: PlatformLimit)
    ensures ParsePlatform(platform).None? ==> r == InstagramLimit
    ensures platform == "twitter" ==> r.chars == 280
    ensures platform == "linkedin" ==> r.chars == 800
    ensures platform == "tiktok" ==> r.chars == 150
    ensures platform == "facebook" ==> r.chars == 40
    ensures r.chars > 0
  {
    match ParsePlatform(platform)
    case Some(Instagram) => InstagramLimit
    case Some(Twitter) => PlatformLimit(280, "Concise, punchy, retweet-worthy")
    case Some(LinkedIn) => PlatformLimit(800, "Medium-long professional content (800-1200 chars)")
    case Some(TikTok) => PlatformLimit(150, "Short, catchy, trend-aware")
    case Some(Facebook) => PlatformLimit(40, "Ultra-short for max engagement")
    case None => InstagramLimit
  }

  /** The per-platform hashtag ceiling and strategy phrase of the hashtag prompt. */
  datatype HashtagStrategy = HashtagStrategy(max: nat, strategy: string)

  const InstagramStrategy := HashtagStrategy(30, "Mix trending, niche, and branded tags")

  /** `hashtagLimits[platform] || hashtagLimits.instagram`. */
  function HashtagLimits(platform: string): (r: HashtagStrategy)
    ensures ParsePlatform(platform).None? ==> r == InstagramStrategy
    ensures platform == "twitter" ==> r.max == 3
    ensures platform == "linkedin" ==> r.max == 8
    ensures platform == "tiktok" ==> r.max == 5
    ensures platform == "facebook" ==> r.max == 3
    ensures 3 <= r.max <= 30
  {
    match ParsePlatform(platform)
    case Some(Instagram) => InstagramStrategy
    case Some(Twitter) => HashtagStrategy(3, "2-3 high-impact trending tags only")
    case Some(LinkedIn) => HashtagStrategy(8, "Professional, industry-focused tags with thought leadership")
    case Some(TikTok) => HashtagStrategy(5, "Trending challenges and viral tags")
    case Some(Facebook) => HashtagStrategy(3, "Broad appeal, community tags")
    case None => InstagramStrategy
  }

  /** An identifier that names no platform gets exactly the instagram entries of both tables. */
  lemma UnknownPlatformIsInstagram(platform: string)
    requires forall p :: PlatformName(p) != platform
    ensures PlatformLimits(platform) == PlatformLimits("instagram")
    ensures HashtagLimits(platform) == HashtagLimits("instagram")
  {
  }

  /** The length line of the body prompt's requirement list. */
  function BodyLengthRequirement(platform: string): (r: string)
    ensures platform == "linkedin" ==> r == "800-1200 characters for medium-long professional content"
    ensures platform != "linkedin" ==> StartsWith(r, "Under ") && EndsWith(r, " characters")
  {
    if platform == "linkedin" then "800-1200 characters for medium-long professional content"
    else "Under " + NatToString(PlatformLimits(platform).chars) + " characters"
  }

  /** The number quoted in a non-LinkedIn length requirement is the resolved character limit. */
  lemma BodyLengthRequirementNumber(platform: string)
    requires platform != "linkedin"
    ensures var r := BodyLengthRequirement(platform);
      var digits := r[|"Under "|..|r| - |" characters"|];
      && (forall i :: 0 <= i < |digits| ==> IsDigit(digits[i]))
      && DigitsValue(digits) == PlatformLimits(platform).chars
  {
    var n := NatToString(PlatformLimits(platform).chars);
    var r := BodyLengthRequirement(platform);
    assert r == "Under " + n + " characters";
    assert r[|"Under "|..|r| - |" characters"|] == n;
    NatToStringRoundTrip(PlatformLimits(platform).chars);
  }

  /** The sampling options sent with one prompt. */
  datatype Options = Options(maxTokens: nat, temperature: real)

  /** The three prompts one post needs: the body, the hashtags and the call to action. */
  datatype PromptKind = BodyPrompt | HashtagPrompt | CtaPrompt

  /** `max_tokens` and `temperature` of each request: only the body's token budget depends
      on the platform, LinkedIn getting the long-form budget. */
  function PromptOptions(kind: PromptKind, platform: string): (r: Options)
    ensures kind == BodyPrompt ==> r.temperature == 0.85 && r.maxTokens == if platform == "linkedin" then 400 else 150
    ensures kind == HashtagPrompt ==> r == Options(100, 0.75)
    ensures kind == CtaPrompt ==> r == Options(80, 0.8)
  {
    match kind
    case BodyPrompt => Options(if platform == "linkedin" then 400 else 150, 0.85)
    case HashtagPrompt => Options(100, 0.75)
    case CtaPrompt => Options(80, 0.8)
  }

  /** The LinkedIn body request has the largest token budget of all requests, and only the
      body request's options vary with the platform. */
  lemma LinkedInBodyLongest(kind: PromptKind, platform: string, other: string)
    ensures PromptOptions(kind, platform).maxTokens <= PromptOptions(BodyPrompt, "linkedin").maxTokens
    ensures kind != BodyPrompt ==> PromptOptions(kind, platform) == PromptOptions(kind, other)
  {
  }

  /** What the backend call produced: no usable HTTP exchange (transport failure or a
      non-success status), or a decoded body whose `choices` array may be missing and
      whose first entry's `message.content` may be missing. */
  datatype BackendReply = Failed | Replied(choices: Option<seq<Option<string>>>)

  /** `generateContent`'s result: `None` where it throws, otherwise
      `data.choices[0]?.message?.content || ''`. */
  function GenerateContent(reply: BackendReply): (r: Option<string>)
    ensures r.None? <==> reply.Failed? || reply.choices.None?
    ensures reply.Replied? && reply.choices.Some? && |reply.choices.value| > 0 && reply.choices.value[0].Some? ==>
      r == reply.choices.value[0]
    ensures r.Some? && r.value != "" ==>
      |reply.choices.value| > 0 && reply.choices.value[0] == Some(r.value)
    ensures r.Some? && (|reply.choices.value| == 0 || reply.choices.value[0].None?) ==> r.value == ""
  {
    match reply
    case Failed => None
    case Replied(None) => None
    case Replied(Some(choices)) =>
      if |choices| > 0 && choices[0].Some? then Some(choices[0].value) else Some("")
  }

  /** `lines.flatMap(f)`: the pieces each line contributes, in line order. */
  function FlatMap(f: string -> seq<string>, lines: seq<string>): seq<string>
  {
    if lines == [] then [] else f(lines[0]) + FlatMap(f, lines[1..])
  }

  /** A flat map distributes over concatenation. */
  lemma {:induction false} FlatMapAppend(f: string -> seq<string>, a: seq<string>, b: seq<string>)
    ensures FlatMap(f, a + b) == FlatMap(f, a) + FlatMap(f, b)
  {
    if a == [] {
      assert a + b == b;
    } else {
      assert (a + b)[0] == a[0] && (a + b)[1..] == a[1..] + b;
      FlatMapAppend(f, a[1..], b);
    }
  }

  /** A string is in a flat map exactly when some line contributes it. */
  lemma {:induction false} FlatMapMembership(f: string -> seq<string>, lines: seq<string>, x: string)
    ensures x in FlatMap(f, lines) <==> exists j :: 0 <= j < |lines| && x in f(lines[j])
  {
    if lines != [] {
      FlatMapMembership(f, lines[1..], x);
      if x in FlatMap(f, lines[1..]) {
        var j :| 0 <= j < |lines[1..]| && x in f(lines[1..][j]);
        assert lines[j + 1] == lines[1..][j];
      }
      if exists j :: 0 <= j < |lines| && x in f(lines[j]) {
        var j :| 0 <= j < |lines| && x in f(lines[j]);
        if j > 0 {
          assert lines[1..][j - 1] == lines[j];
        }
      }
    }
  }

  /** `line.trim().startsWith('#')`. */
  predicate IsHashtagLine(line: string) {
    StartsWith(Trim(line), "#")
  }

  /** What one reply line contributes: its trim when that starts with `#`, else nothing. */
  function Kept(line: string): seq<string> {
    if IsHashtagLine(line) then [Trim(line)] else []
  }

  /** `lines.filter(line => line.trim().startsWith('#')).map(tag => tag.trim())`. */
  function HashtagLines(lines: seq<string>): seq<string>
  {
    FlatMap(Kept, lines)
  }

  /** Filtering distributes over concatenation, so the kept lines keep their relative order. */
  lemma HashtagLinesAppend(a: seq<string>, b: seq<string>)
    ensures HashtagLines(a + b) == HashtagLines(a) + HashtagLines(b)
  {
    FlatMapAppend(Kept, a, b);
  }

  /** A string is kept exactly when it is the trim of some line whose trim starts with `#`. */
  lemma HashtagLinesMembership(lines: seq<string>, x: string)
    ensures x in HashtagLines(lines) <==>
      exists j :: 0 <= j < |lines| && IsHashtagLine(lines[j]) && x == Trim(lines[j])
  {
    FlatMapMembership(Kept, lines, x);
    assert forall j :: 0 <= j < |lines| ==> (x in Kept(lines[j]) <==> IsHashtagLine(lines[j]) && x == Trim(lines[j]));
  }

  /** Every kept line is trimmed and starts with `#`. */
  lemma HashtagLinesShape(lines: seq<string>)
    ensures forall i :: 0 <= i < |HashtagLines(lines)| ==>
      StartsWith(HashtagLines(lines)[i], "#") && Trim(HashtagLines(lines)[i]) == HashtagLines(lines)[i]
  {
    forall i | 0 <= i < |HashtagLines(lines)|
      ensures StartsWith(HashtagLines(lines)[i], "#") && Trim(HashtagLines(lines)[i]) == HashtagLines(lines)[i]
    {
      var x := HashtagLines(lines)[i];
      HashtagLinesMembership(lines, x);
      var j :| 0 <= j < |lines| && IsHashtagLine(lines[j]) && x == Trim(lines[j]);
      TrimIdempotent(lines[j]);
    }
  }

  /** `generateHashtags`'s parsing of the reply: split into lines, keep the `#` lines,
      trim them, and keep at most the platform's ceiling. */
  function ParseHashtags(response: string, platform: string): (r: seq<string>)
    ensures |r| <= HashtagLimits(platform).max
    ensures forall i :: 0 <= i < |r| ==> StartsWith(r[i], "#") && Trim(r[i]) == r[i]
    ensures var all := HashtagLines(Split(response, '\n'));
      && |r| == (if |all| <= HashtagLimits(platform).max then |all| else HashtagLimits(platform).max)
      && r == all[..|r|]
  {
    var all := HashtagLines(Split(response, '\n'));
    HashtagLinesShape(Split(response, '\n'));
    var max := HashtagLimits(platform).max;
    if |all| <= max then all else all[..max]
  }

  /** `lines.find(line => line.includes(marker))`, as an index (-1 when none). */
  function FirstContaining(lines: seq<string>, marker: string): (r: int)
    ensures -1 <= r < |lines|
    ensures r >= 0 ==> Contains(lines[r], marker)
    ensures forall j :: 0 <= j < |lines| && (r < 0 || j < r) ==> !Contains(lines[j], marker)
  {
    if lines == [] then -1
    else if Contains(lines[0], marker) then 0
    else
      var k := FirstContaining(lines[1..], marker);
      assert forall j :: 1 <= j < |lines| ==> lines[j] == lines[1..][j - 1];
      if k < 0 then -1 else k + 1
  }

  /** `line?.replace(label, '').trim() || fallback`. */
  function LabelledValue(lines: seq<string>, marker: string, fallback: string): (r: string)
    ensures FirstContaining(lines, marker) < 0 ==> r == fallback
    ensures fallback != "" ==> r != ""
  {
    var k := FirstContaining(lines, marker);
    if k < 0 then fallback
    else
      var v := Trim(RemoveFirst(lines[k], marker));
      if v == "" then fallback else v
  }

  const DefaultCta := "Tag someone who needs this!"

  function DefaultButtonText(business: string): (r: string)
    ensures Contains(r, business)
  {
    ContainsMiddle("Try ", business, " 🚀");
    "Try " + business + " 🚀"
  }

  datatype CtaResult = CtaResult(cta: string, buttonText: string)

  /** `generateCTA`'s parsing of the `CTA:` / `BUTTON:` reply. */
  function ParseCta(response: string, business: string): (r: CtaResult)
    ensures r.cta != "" && r.buttonText != ""
    ensures FirstContaining(Split(response, '\n'), "CTA:") < 0 ==> r.cta == DefaultCta
    ensures FirstContaining(Split(response, '\n'), "BUTTON:") < 0 ==> r.buttonText == DefaultButtonText(business)
    ensures var lines := Split(response, '\n'); var k := FirstContaining(lines, "CTA:");
      k >= 0 ==> r.cta == (if Trim(RemoveFirst(lines[k], "CTA:")) == "" then DefaultCta
                           else Trim(RemoveFirst(lines[k], "CTA:")))
    ensures var lines := Split(response, '\n'); var k := FirstContaining(lines, "BUTTON:");
      k >= 0 ==> r.buttonText == (if Trim(RemoveFirst(lines[k], "BUTTON:")) == "" then DefaultButtonText(business)
                                  else Trim(RemoveFirst(lines[k], "BUTTON:")))
  {
    var lines := Split(response, '\n');
    CtaResult(LabelledValue(lines, "CTA:", DefaultCta),
              LabelledValue(lines, "BUTTON:", DefaultButtonText(business)))
  }

  /** Only the marker is cut from the first labelled line: text on either side of it stays. */
  lemma LabelCutKeepsSurroundings(pre: string, marker: string, post: string)
    requires |marker| > 0 && marker[|marker| - 1] !in marker[..|marker| - 1]
    requires !Contains(pre, marker)
    ensures RemoveFirst(pre + marker + post, marker) == pre + post
  {
    var s := pre + marker + post;
    var n := |marker|;
    assert OccursAt(s, marker, |pre|) by {
      assert s[|pre|..|pre| + n] == marker;
    }
    forall j | 0 <= j < |pre|
      ensures !OccursAt(s, marker, j)
    {
      if j + n <= |pre| {
        assert s[j..j + n] == pre[j..j + n];
        assert !OccursAt(pre, marker, j);
      }
    }
    assert IndexOf(s, marker) == |pre|;
    assert s[..|pre|] == pre;
    assert s[|pre| + n..] == post;
  }

  /** A reply whose first `CTA:` line is `pre + "CTA:" + post` gives the trimmed remainder
      `pre + post`, so any text before the marker is kept. */
  lemma CtaKeepsTextBeforeLabel(pre: string, post: string, rest: seq<string>, business: string)
    requires '\n' !in pre && '\n' !in post && !Contains(pre, "CTA:")
    requires Trim(pre + post) != ""
    ensures ParseCta(Join([pre + "CTA:" + post] + rest, "\n"), business).cta == Trim(pre + post)
  {
    var line := pre + "CTA:" + post;
    var response := Join([line] + rest, "\n");
    LabelCutKeepsSurroundings(pre, "CTA:", post);
    ContainsMiddle(pre, "CTA:", post);
    var lines := Split(response, '\n');
    assert lines[0] == line by {
      SplitFirstLine(line, rest, '\n');
    }
    assert FirstContaining(lines, "CTA:") == 0;
    assert RemoveFirst(lines[0], "CTA:") == pre + post;
  }

  /** The first piece of a split join is the first joined string, when it is separator-free. */
  lemma {:induction false} SplitFirstLine(first: string, rest: seq<string>, c: char)
    requires c !in first
    ensures Split(Join([first] + rest, [c]), c)[0] == first
    decreases |first|
  {
    var xs := [first] + rest;
    if |xs| == 1 {
      SplitOfFree(first, c);
    } else if first == [] {
      assert Join(xs, [c]) == [c] + Join(xs[1..], [c]);
    } else {
      var ys := [first[1..]] + rest;
      assert ys[1..] == rest && xs[1..] == rest;
      assert Join(xs, [c]) == [first[0]] + Join(ys, [c]);
      assert Join(xs, [c])[1..] == Join(ys, [c]);
      SplitFirstLine(first[1..], rest, c);
      assert [first[0]] + first[1..] == first;
    }
  }
}
