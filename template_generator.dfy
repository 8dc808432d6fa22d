/** The template compositor and batch driver of `lib/viral-post-generator.ts`: the
    static phrase tables, the offline post generator (its random draws are inputs),
    the export formatter, and the batch drivers with per-post fallback from the
    backend route to the template. */
module TemplateGenerator {
  import opened Text
  import opened Posts
  import opened GenerateRoute

  datatype ToneTemplate = ToneTemplate(starters: seq<string>, emojis: seq<string>, ctas: seq<string>)

  datatype GoalTemplate = GoalTemplate(ctas: seq<string>, questions: seq<string>)

  /** `toneTemplates`: opening fragments, emoji pool and call-to-action fragments per tone. */
  function ToneTemplates(t: Tone): ToneTemplate {
    match t
    case Humorous => ToneTemplate(
      ["Who else", "POV:", "Me trying to", "When you finally", "That feeling when"],
      ["😂", "🤣", "😭", "💀", "🤡", "😏", "🙃"],
      ["Tag someone who needs this", "Comment if you relate", "Share if this is you"])
    case Inspirational => ToneTemplate(
      ["Believe in", "Your journey", "Success isn't", "Dream big", "Every step"],
      ["✨", "🌟", "💪", "🚀", "🔥", "💎", "🌈"],
      ["Double tap if you agree", "Share your story below", "Tag someone who inspires you"])
    case Bold => ToneTemplate(
      ["Stop", "The truth:", "Here's what", "Nobody talks about", "Real talk:"],
      ["🔥", "💯", "⚡", "🎯", "💥", "🚨", "👑"],
      ["Repost if you agree", "Drop a 🔥 if this hits", "Share your thoughts"])
    case Minimalist => ToneTemplate(
      ["Less is", "Simple.", "Focus on", "Quality over", "Essential:"],
      ["▪️", "▫️", "○", "●", "◦", "—", "·"],
      ["Thoughts?", "Save for later", "Share if you agree"])
    case Quirky => ToneTemplate(
      ["Plot twist:", "Fun fact:", "Weird but true:", "Random thought:", "Just saying:"],
      ["🤪", "🦄", "🌮", "🎨", "🎭", "🎪", "🎯"],
      ["Anyone else?", "Thoughts in comments", "Tag your weird friend"])
    case Premium => ToneTemplate(
      ["Introducing", "Crafted for", "Experience", "Elevate your", "Luxury meets"],
      ["👑", "💎", "✨", "🥂", "🎩", "🏆", "⭐"],
      ["Discover more", "Join the elite", "Experience luxury"])
    case Playful => ToneTemplate(
      ["Ready to", "Let's go", "Time for", "Who's excited", "Game on"],
      ["🎉", "🎊", "🎈", "🎮", "🎯", "🎨", "🌈"],
      ["Join the fun", "Let's play", "Who's in?"])
    case Professional => ToneTemplate(
      ["Announcing", "We're excited", "Industry insight:", "New research shows", "Professional tip:"],
      ["📊", "💼", "📈", "🎯", "⚡", "💡", "🔧"],
      ["Learn more", "Connect with us", "Share your experience"])
  }

  /** `platformHashtags`: six generic tags per platform. */
  function PlatformHashtags(p: Platform): seq<string> {
    match p
    case Instagram => ["#viralpost", "#trending", "#explore", "#fyp", "#reels", "#instagood"]
    case Twitter => ["#viral", "#trending", "#TwitterTips", "#thread", "#startup", "#tech"]
    case LinkedIn => ["#professional", "#networking", "#career", "#business", "#leadership", "#innovation"]
    case TikTok => ["#fyp", "#viral", "#trending", "#foryou", "#tiktokmademebuyit", "#trend"]
    case Facebook => ["#viral", "#trending", "#community", "#share", "#facebook", "#social"]
  }

  /** `goalTemplates`: call-to-action lines and follow-up questions per goal. */
  function GoalTemplates(g: Goal): GoalTemplate {
    match g
    case Engagement => GoalTemplate(
      ["What do you think?", "Comment below", "Your thoughts?", "Agree or disagree?"],
      ["What's your experience?", "How do you handle this?", "Thoughts?"])
    case Discovery => GoalTemplate(
      ["Save this post", "Share with friends", "Check us out", "Learn more"],
      ["Have you tried this?", "What else should we share?"])
    case Shares => GoalTemplate(
      ["Share if you agree", "Repost this", "Tag someone", "Spread the word"],
      ["Who needs to see this?", "Tag a friend who"])
    case Signups => GoalTemplate(
      ["Sign up now", "Join us", "Get started", "Try it free"],
      ["Ready to start?", "What are you waiting for?"])
    case Sales => GoalTemplate(
      ["Shop now", "Get yours", "Limited time", "Don't miss out"],
      ["Ready to upgrade?", "Which one's your favorite?"])
    case Awareness => GoalTemplate(
      ["Learn more", "Discover", "Explore", "Find out why"],
      ["Did you know?", "What surprised you most?"])
  }

  predicate Distinct(s: seq<string>) {
    forall i, j :: 0 <= i < j < |s| ==> s[i] != s[j]
  }

  /** Every tone has five openers, seven distinct emojis and three call-to-action fragments. */
  lemma ToneTemplatesShape(t: Tone)
    ensures var tt := ToneTemplates(t);
      |tt.starters| == 5 && |tt.emojis| == 7 && Distinct(tt.emojis) && |tt.ctas| == 3
  {
    ToneEmojisDistinct(t);
  }

  /** No tone's pool repeats an emoji, so a shuffle's first picks are distinct. */
  lemma ToneEmojisDistinct(t: Tone)
    ensures Distinct(ToneTemplates(t).emojis)
  {
    if t in {Humorous, Inspirational, Bold, Minimalist} {
      FirstToneEmojisDistinct(t);
    } else {
      LastToneEmojisDistinct(t);
    }
  }

  lemma FirstToneEmojisDistinct(t: Tone)
    requires t in {Humorous, Inspirational, Bold, Minimalist}
    ensures Distinct(ToneTemplates(t).emojis)
  {
    match t
    case Humorous =>
    case Inspirational =>
    case Bold =>
    case Minimalist =>
    case _ =>
  }

  lemma LastToneEmojisDistinct(t: Tone)
    requires t in {Quirky, Premium, Playful, Professional}
    ensures Distinct(ToneTemplates(t).emojis)
  {
    match t
    case Quirky =>
    case Premium =>
    case Playful =>
    case Professional =>
    case _ =>
  }

  /** Every platform has six generic tags, so the first three always exist. */
  lemma PlatformHashtagsShape(p: Platform)
    ensures |PlatformHashtags(p)| == 6
  {
  }

  /** Every goal has four call-to-action lines and two or three questions. */
  lemma GoalTemplatesShape(g: Goal)
    ensures |GoalTemplates(g).ctas| == 4 && 2 <= |GoalTemplates(g).questions| <= 3
  {
  }

  /** `order` lists every index below `n` once: one outcome of shuffling a pool of size `n`. */
  predicate IsPermutation(order: seq<nat>, n: nat) {
    && |order| == n
    && (forall i :: 0 <= i < n ==> order[i] < n)
    && (forall i, j :: 0 <= i < j < n ==> order[i] != order[j])
  }

  /** The random draws of one `generateViralPost` call. `randomFrom` yields an index;
      every `randomEmojis(k)` call shuffles the tone's emoji pool afresh, and its
      shuffle is given as a permutation of the pool's indices.
      - `starter`: the opener;
      - `bodyEmojiOrder`: the shuffle behind the emojis in the first line;
      - `closing`: the goal line closing the body (a question on LinkedIn);
      - `closingEmojiOrder`: the shuffle behind the final emoji (other than Twitter and LinkedIn);
      - `cta`: the `cta` field;
      - `emojiOrder`: the shuffle behind the `emojis` field. */
  datatype Choices = Choices(
    starter: nat,
    bodyEmojiOrder: seq<nat>,
    closing: nat,
    closingEmojiOrder: seq<nat>,
    cta: nat,
    emojiOrder: seq<nat>)

  /** What `Math.random` guarantees: every index is in range and every shuffle is a permutation. */
  predicate ValidChoices(input: PostInput, c: Choices) {
    var tone := ToneTemplates(input.tone);
    var goal := GoalTemplates(input.goal);
    && c.starter < |tone.starters|
    && IsPermutation(c.bodyEmojiOrder, |tone.emojis|)
    && c.closing < (if input.platform == LinkedIn then |goal.questions| else |goal.ctas|)
    && IsPermutation(c.closingEmojiOrder, |tone.emojis|)
    && c.cta < |goal.ctas|
    && IsPermutation(c.emojiOrder, |tone.emojis|)
  }

  /** `randomEmojis(count)`: the first `count` entries of a shuffled copy of the pool. */
  function RandomEmojis(pool: seq<string>, order: seq<nat>, count: nat): (r: seq<string>)
    requires IsPermutation(order, |pool|) && count <= |pool|
    ensures |r| == count
    ensures forall i :: 0 <= i < count ==> r[i] in pool
    ensures Distinct(pool) ==> Distinct(r)
  {
    seq(count, i requires 0 <= i < count => pool[order[i]])
  }

  /** Three paragraphs separated by blank lines: the shape of every template body. */
  function Paragraphs(first: string, middle: string, last: string): (r: string)
    ensures StartsWith(r, first + "\n\n") && EndsWith(r, "\n\n" + last)
    ensures Contains(r, middle) && Contains(r, "\n\n")
  {
    var r := first + "\n\n" + middle + "\n\n" + last;
    assert r[..|first + "\n\n"|] == first + "\n\n";
    assert r[|r| - |"\n\n" + last|..] == "\n\n" + last;
    ContainsMiddle(first + "\n\n", middle, "\n\n" + last);
    assert r == first + "\n\n" + middle + ("\n\n" + last);
    ContainsMiddle(first, "\n\n", middle + "\n\n" + last);
    assert r == first + "\n\n" + (middle + "\n\n" + last);
    r
  }

  /** The opening every layout starts with: a random opener and the product. */
  function Opening(input: PostInput, c: Choices): string
    requires ValidChoices(input, c)
  {
    ToneTemplatesShape(input.tone);
    ToneTemplates(input.tone).starters[c.starter] + " " + input.product
  }

  /** The line closing the body: a follow-up question on LinkedIn, a goal line elsewhere. */
  function Closing(input: PostInput, c: Choices): (r: string)
    requires ValidChoices(input, c)
    ensures input.platform == LinkedIn ==> r in GoalTemplates(input.goal).questions
    ensures input.platform != LinkedIn ==> r in GoalTemplates(input.goal).ctas
  {
    if input.platform == LinkedIn then GoalTemplates(input.goal).questions[c.closing]
    else GoalTemplates(input.goal).ctas[c.closing]
  }

  /** A string starting with `a + b` starts with `a`. */
  lemma StartsWithShorter(s: string, a: string, b: string)
    requires StartsWith(s, a + b)
    ensures StartsWith(s, a)
  {
    assert s[..|a|] == (a + b)[..|a|];
  }

  /** The Twitter layout: the emojis run together after the product. */
  function TwitterLayout(opening: string, emojis: seq<string>, business: string, closing: string): (r: string)
    ensures StartsWith(r, opening + " ")
    ensures Contains(r, business + " just dropped something special!") && Contains(r, "\n\n")
    ensures EndsWith(r, "\n\n" + closing)
  {
    var first := opening + " " + Join(emojis, "");
    var r := Paragraphs(first, business + " just dropped something special!", closing);
    StartsWithShorter(r, first, "\n\n");
    StartsWithShorter(r, opening + " ", Join(emojis, ""));
    r
  }

  /** The LinkedIn layout: the description as its own paragraph, then the question for the audience. */
  function LinkedInLayout(opening: string, description: string, audience: string, question: string): (r: string)
    ensures StartsWith(r, opening + ".")
    ensures Contains(r, description) && Contains(r, "\n\n")
    ensures EndsWith(r, "\n\n" + "What this means for " + audience + ": " + question)
  {
    var last := "What this means for " + audience + ": " + question;
    var r := Paragraphs(opening + ".", description, last);
    StartsWithShorter(r, opening + ".", "\n\n");
    assert "\n\n" + last == "\n\n" + "What this means for " + audience + ": " + question;
    r
  }

  /** The layout of the other platforms: spaced emojis, business and description, and a
      closing emoji. */
  function FeedLayout(opening: string, emojis: seq<string>, business: string, description: string,
                      closing: string, emoji: string): (r: string)
    ensures StartsWith(r, opening + " ")
    ensures Contains(r, business + " - " + description) && Contains(r, "\n\n")
    ensures EndsWith(r, "\n\n" + closing + " " + emoji)
  {
    var first := opening + " " + Join(emojis, " ");
    var r := Paragraphs(first, business + " - " + description, closing + " " + emoji);
    StartsWithShorter(r, first, "\n\n");
    StartsWithShorter(r, opening + " ", Join(emojis, " "));
    assert "\n\n" + (closing + " " + emoji) == "\n\n" + closing + " " + emoji;
    r
  }

  /** The post body, laid out by platform: three paragraphs, the first starting with the
      opener and the product; the middle one names the business (Twitter), the description
      (LinkedIn) or both; the last ends in the goal line or question, followed on the other
      platforms by one emoji of the tone's pool. */
  function TemplateContent(input: PostInput, c: Choices): (r: string)
    requires ValidChoices(input, c)
    ensures StartsWith(r, Opening(input, c))
    ensures Contains(r, "\n\n")
    ensures input.platform == Twitter ==>
      Contains(r, input.business + " just dropped something special!")
      && EndsWith(r, "\n\n" + Closing(input, c))
    ensures input.platform == LinkedIn ==>
      Contains(r, input.businessDescription)
      && EndsWith(r, "\n\n" + "What this means for " + input.audience + ": " + Closing(input, c))
    ensures input.platform != Twitter && input.platform != LinkedIn ==>
      Contains(r, input.business + " - " + input.businessDescription)
      && exists e :: e in ToneTemplates(input.tone).emojis && EndsWith(r, "\n\n" + Closing(input, c) + " " + e)
  {
    ToneTemplatesShape(input.tone);
    var pool := ToneTemplates(input.tone).emojis;
    var opening := Opening(input, c);
    if input.platform == Twitter then
      var r := TwitterLayout(opening, RandomEmojis(pool, c.bodyEmojiOrder, 2), input.business, Closing(input, c));
      StartsWithShorter(r, opening, " ");
      r
    else if input.platform == LinkedIn then
      var r := LinkedInLayout(opening, input.businessDescription, input.audience, Closing(input, c));
      StartsWithShorter(r, opening, ".");
      r
    else
      var e := RandomEmojis(pool, c.closingEmojiOrder, 1)[0];
      var r := FeedLayout(opening, RandomEmojis(pool, c.bodyEmojiOrder, 2), input.business,
                          input.businessDescription, Closing(input, c), e);
      StartsWithShorter(r, opening, " ");
      assert e in pool;
      r
  }

  /** `'#' + business.replace(/\s+/g, '').toLowerCase()`. */
  function BusinessTag(business: string): (r: string)
    ensures StartsWith(r, "#") && NoWhitespace(r)
    ensures forall i :: 0 <= i < |r| ==> !('A' <= r[i] <= 'Z')
  {
    "#" + Lower(RemoveWhitespace(business))
  }

  /** `'#' + audience.split(' ')[0].toLowerCase()`. */
  function AudienceTag(audience: string): (r: string)
    ensures StartsWith(r, "#") && ' ' !in r
    ensures forall i :: 0 <= i < |r| ==> !('A' <= r[i] <= 'Z')
  {
    SplitPiecesFree(audience, ' ');
    var first := Split(audience, ' ')[0];
    assert forall i :: 0 <= i < |first| ==> first[i] != ' ';
    "#" + Lower(first)
  }

  /** The business tag of a two-word name: the white-space run between the words, of any
      `\s` characters, vanishes and capitals become small letters, so "Pure Sip" and
      "Pure\tSip" both become "#puresip". */
  lemma BusinessTagOfTwoWords(a: string, w: string, b: string)
    requires NoWhitespace(a) && NoWhitespace(b)
    requires forall k :: 0 <= k < |w| ==> IsWhitespace(w[k])
    ensures BusinessTag(a + w + b) == "#" + Lower(a + b)
  {
    var x := w + b;
    RemoveWhitespaceAppend(w, b);
    RemoveWhitespaceOfRun(w);
    RemoveWhitespaceIdentity(b);
    assert RemoveWhitespace(x) == [] + b == b;
    RemoveWhitespaceAppend(a, x);
    RemoveWhitespaceIdentity(a);
    assert RemoveWhitespace(a + x) == a + b;
    SeqAssoc(a, w, b);
    assert RemoveWhitespace(a + w + b) == a + b;
  }

  /** The audience tag keeps only the first space-separated word, so "Gen Z runners"
      becomes "#gen". */
  lemma AudienceTagFirstWord(a: string, b: string)
    requires ' ' !in a
    ensures AudienceTag(a + " " + b) == "#" + Lower(a)
  {
    assert a + " " + b == a + [' '] + b;
    SplitFirstPiece(a, ' ', b);
  }

  /** `[...platformTags.slice(0, 3), businessTag, audienceTag, ...customTags].slice(0, 8)`:
      three platform tags, the business tag, the audience tag, then the custom tags in
      order for as long as the cap of eight leaves room. */
  function TemplateHashtags(input: PostInput): (r: seq<string>)
    ensures |r| == if |input.customHashtags| <= 3 then 5 + |input.customHashtags| else MaxHashtags
    ensures r[..3] == PlatformHashtags(input.platform)[..3]
    ensures r[3] == BusinessTag(input.business) && r[4] == AudienceTag(input.audience)
    ensures r[5..] == input.customHashtags[..|r| - 5]
  {
    PlatformHashtagsShape(input.platform);
    var fixed := PlatformHashtags(input.platform)[..3] + [BusinessTag(input.business), AudienceTag(input.audience)];
    var all := fixed + input.customHashtags;
    var r := CapHashtags(all);
    assert r[..3] == fixed[..3];
    assert r[5..] == all[5..|r|];
    assert all[5..|r|] == input.customHashtags[..|r| - 5];
    r
  }

  /** With at most three custom tags every one of them is kept, after the five fixed tags. */
  lemma TemplateHashtagsKeepAllCustom(input: PostInput)
    requires |input.customHashtags| <= 3
    ensures TemplateHashtags(input)[5..] == input.customHashtags
    ensures forall t :: t in input.customHashtags ==> t in TemplateHashtags(input)
  {
    var r := TemplateHashtags(input);
    assert r[5..] == input.customHashtags;
    forall t | t in input.customHashtags
      ensures t in r
    {
      var k :| 0 <= k < |input.customHashtags| && input.customHashtags[k] == t;
      assert r[5 + k] == r[5..][k];
    }
  }

  /** The button label chosen by goal; every label names the business. */
  function ButtonText(goal: Goal, business: string): (r: string)
    ensures Contains(r, business)
  {
    match goal
    case Sales => ContainsMiddle("Shop ", business, " Now 🚀"); "Shop " + business + " Now 🚀"
    case Signups => ContainsMiddle("Join ", business, " Today ✨"); "Join " + business + " Today ✨"
    case Discovery => ContainsMiddle("Discover ", business, " 💫"); "Discover " + business + " 💫"
    case _ => ContainsMiddle("Explore ", business, " 🌟"); "Explore " + business + " 🌟"
  }

  /** The post's `emojis` field: three distinct picks from the tone's pool. */
  function PostEmojis(input: PostInput, c: Choices): (r: seq<string>)
    requires ValidChoices(input, c)
    ensures |r| == 3 && Distinct(r)
    ensures forall i :: 0 <= i < 3 ==> r[i] in ToneTemplates(input.tone).emojis
  {
    ToneTemplatesShape(input.tone);
    RandomEmojis(ToneTemplates(input.tone).emojis, c.emojiOrder, 3)
  }

  /** `generateViralPost`, with its random draws given by `c`. */
  function GenerateViralPost(input: PostInput, c: Choices): (r: GeneratedPost)
    requires ValidChoices(input, c)
    ensures r.content == TemplateContent(input, c)
    ensures r.hashtags == TemplateHashtags(input) && |r.hashtags| <= MaxHashtags
    ensures |r.emojis| == 3 && Distinct(r.emojis)
    ensures forall i :: 0 <= i < 3 ==> r.emojis[i] in ToneTemplates(input.tone).emojis
    ensures r.cta in GoalTemplates(input.goal).ctas
    ensures r.buttonText == ButtonText(input.goal, input.business) && Contains(r.buttonText, input.business)
    ensures r.wordCount == CountChar(r.content, ' ') + 1 && r.wordCount >= 1
    ensures r.platform == PlatformName(input.platform)
  {
    var content := TemplateContent(input, c);
    GeneratedPost(
      content := content,
      hashtags := TemplateHashtags(input),
      emojis := PostEmojis(input, c),
      cta := GoalTemplates(input.goal).ctas[c.cta],
      buttonText := ButtonText(input.goal, input.business),
      wordCount := WordCount(content),
      platform := PlatformName(input.platform))
  }

  /** The tags as shown and exported: each gets a leading `#` unless it has one. */
  function NormalizedTags(tags: seq<string>): (r: seq<string>)
    ensures |r| == |tags|
    ensures forall i :: 0 <= i < |r| ==> r[i] == NormalizeTag(tags[i])
    ensures forall i :: 0 <= i < |r| ==> StartsWith(r[i], "#")
  {
    seq(|tags|, i requires 0 <= i < |tags| => NormalizeTag(tags[i]))
  }

  /** The text before the hashtag block of an export: the content, a blank line, and on
      LinkedIn a `---` line. */
  function FormatPrefix(post: GeneratedPost): string {
    post.content + "\n\n" + (if post.platform == "linkedin" then "---\n" else "")
  }

  /** `formatPostForPlatform`: for every tag list, the export is the prefix followed by the
      normalised tags joined by single spaces. */
  function FormatPostForPlatform(post: GeneratedPost): (r: string)
    ensures StartsWith(r, post.content + "\n\n")
    ensures r == FormatPrefix(post) + Join(NormalizedTags(post.hashtags), " ")
  {
    var hashtagString := Join(NormalizedTags(post.hashtags), " ");
    var r := if post.platform == "linkedin" then post.content + "\n\n---\n" + hashtagString
             else post.content + "\n\n" + hashtagString;
    assert r[..|post.content + "\n\n"|] == post.content + "\n\n";
    r
  }

  /** A post without tags exports as its prefix alone: on LinkedIn the `---` line stays. */
  lemma FormatNoTags(post: GeneratedPost)
    requires post.hashtags == []
    ensures post.platform == "linkedin" ==> FormatPostForPlatform(post) == post.content + "\n\n---\n"
    ensures post.platform != "linkedin" ==> FormatPostForPlatform(post) == post.content + "\n\n"
  {
    JoinStep([], [], " ");
  }

  /** The block after the prefix includes every normalised tag, spaces or not. */
  lemma FormatKeepsEveryTag(post: GeneratedPost, i: nat)
    requires i < |post.hashtags|
    ensures var r := FormatPostForPlatform(post); var p := FormatPrefix(post);
      && |p| <= |r|
      && Contains(r[|p|..], NormalizeTag(post.hashtags[i]))
  {
    var tags := NormalizedTags(post.hashtags);
    var r := FormatPostForPlatform(post);
    var p := FormatPrefix(post);
    assert r[|p|..] == Join(tags, " ");
    JoinContainsEach(tags, " ", i);
  }

  /** The block step by step: the first normalised tag, then a space and the block of the
      rest when there are more. */
  lemma FormatTagStep(post: GeneratedPost, tag: string, rest: seq<string>)
    requires post.hashtags == [tag] + rest
    ensures rest == [] ==> FormatPostForPlatform(post) == FormatPrefix(post) + NormalizeTag(tag)
    ensures rest != [] ==>
      FormatPostForPlatform(post) == FormatPrefix(post) + NormalizeTag(tag) + " " + Join(NormalizedTags(rest), " ")
  {
    assert NormalizedTags(post.hashtags) == [NormalizeTag(tag)] + NormalizedTags(rest);
    JoinStep(NormalizeTag(tag), NormalizedTags(rest), " ");
  }

  /** A lone tag holding a space, as a reply line "#eco #green" becomes, is exported whole:
      the block is that one tag, not one tag per word. */
  lemma FormatKeepsSpacedTag(post: GeneratedPost, a: string, b: string)
    requires post.hashtags == ["#" + a + " " + b]
    ensures FormatPostForPlatform(post) == FormatPrefix(post) + "#" + a + " " + b
  {
    var t := "#" + a + " " + b;
    assert t[..1] == "#";
    assert NormalizeTag(t) == t;
    FormatTagStep(post, t, []);
  }

  /** An export is the content, a blank line, `---` on LinkedIn, then a block from which
      splitting on spaces recovers the normalised tags, one per tag, when no tag holds a space. */
  lemma FormatRecoversTags(post: GeneratedPost)
    requires |post.hashtags| >= 1
    requires forall i :: 0 <= i < |post.hashtags| ==> ' ' !in post.hashtags[i]
    ensures var r := FormatPostForPlatform(post); var p := FormatPrefix(post);
      && StartsWith(r, p)
      && Split(r[|p|..], ' ') == NormalizedTags(post.hashtags)
  {
    var tags := NormalizedTags(post.hashtags);
    var r := FormatPostForPlatform(post);
    var p := FormatPrefix(post);
    assert r == p + Join(tags, " ");
    assert r[|p|..] == Join(tags, " ");
    forall i | 0 <= i < |tags|
      ensures ' ' !in tags[i]
    {
      assert ' ' !in post.hashtags[i];
    }
    SplitJoin(tags, ' ');
  }

  /** The number of posts a batch asks for when the caller gives none. */
  const DefaultCount: nat := 3

  /** `generateMultiplePosts(input, count)`: one template post per element of `choices`. */
  function GenerateMultiplePosts(input: PostInput, count: nat, choices: seq<Choices>): (r: seq<GeneratedPost>)
    requires |choices| == count
    requires forall i :: 0 <= i < count ==> ValidChoices(input, choices[i])
    ensures |r| == count
    ensures forall i :: 0 <= i < count ==> r[i] == GenerateViralPost(input, choices[i])
  {
    seq(count, i requires 0 <= i < count => GenerateViralPost(input, choices[i]))
  }

  /** `JSON.stringify(input)` as the route decodes it. */
  function RequestBodyOf(input: PostInput): RequestBody {
    RequestBody(
      Some(input.business), Some(input.businessDescription), Some(input.product),
      Some(PlatformName(input.platform)), Some(input.audience),
      Some(ToneName(input.tone)), Some(GoalName(input.goal)), Tags(input.customHashtags))
  }

  /** What the `fetch` of `/api/generate-post` came to: no HTTP answer at all, or an
      answer from the route, given by the route's own inputs. */
  datatype FetchResult = NetworkError | Reached(apiKeyConfigured: bool, replies: BackendReplies)

  /** `generateViralPostWithAI`: the route's post on a 200 answer, otherwise the template post. */
  function GenerateViralPostWithAI(input: PostInput, fetched: FetchResult, c: Choices): (r: GeneratedPost)
    requires ValidChoices(input, c)
    ensures fetched.NetworkError? ==> r == GenerateViralPost(input, c)
    ensures fetched.Reached? ==>
      var answer := Post(Some(RequestBodyOf(input)), fetched.apiKeyConfigured, fetched.replies);
      r == if answer.Success? then answer.post else GenerateViralPost(input, c)
  {
    match fetched
    case NetworkError => GenerateViralPost(input, c)
    case Reached(key, replies) =>
      var answer := Post(Some(RequestBodyOf(input)), key, replies);
      if answer.Success? then answer.post else GenerateViralPost(input, c)
  }

  /** A request with an empty business name is refused by the route, so the template is used. */
  lemma EmptyBusinessFallsBack(input: PostInput, fetched: FetchResult, c: Choices)
    requires ValidChoices(input, c) && input.business == ""
    ensures GenerateViralPostWithAI(input, fetched, c) == GenerateViralPost(input, c)
  {
  }

  /** Whichever path produced it, a post carries the request's platform, at most eight tags
      and a word count of at least one. */
  lemma AiPostShape(input: PostInput, fetched: FetchResult, c: Choices)
    requires ValidChoices(input, c)
    ensures var r := GenerateViralPostWithAI(input, fetched, c);
      && r.platform == PlatformName(input.platform)
      && |r.hashtags| <= MaxHashtags
      && r.wordCount >= 1
  {
    if fetched.Reached? {
      var answer := Post(Some(RequestBodyOf(input)), fetched.apiKeyConfigured, fetched.replies);
      if answer.Success? {
        SuccessfulPostShape(Some(RequestBodyOf(input)), fetched.apiKeyConfigured, fetched.replies);
      }
    }
  }

  /** `generateMultiplePostsWithAI(input, count)`: each post falls back on its own. */
  function GenerateMultiplePostsWithAI(input: PostInput, count: nat, fetched: seq<FetchResult>,
                                       choices: seq<Choices>): (r: seq<GeneratedPost>)
    requires |fetched| == count && |choices| == count
    requires forall i :: 0 <= i < count ==> ValidChoices(input, choices[i])
    ensures |r| == count
    ensures forall i :: 0 <= i < count ==> r[i] == GenerateViralPostWithAI(input, fetched[i], choices[i])
  {
    seq(count, i requires 0 <= i < count => GenerateViralPostWithAI(input, fetched[i], choices[i]))
  }

  /** A batch has exactly `count` posts and every one of them has the request's platform,
      at most eight tags and a word count of at least one, in either mode. */
  lemma BatchShape(input: PostInput, count: nat, fetched: seq<FetchResult>, choices: seq<Choices>)
    requires |fetched| == count && |choices| == count
    requires forall i :: 0 <= i < count ==> ValidChoices(input, choices[i])
    ensures var ai := GenerateMultiplePostsWithAI(input, count, fetched, choices);
      var offline := GenerateMultiplePosts(input, count, choices);
      && |ai| == count && |offline| == count
      && (forall i :: 0 <= i < count ==>
            ai[i].platform == PlatformName(input.platform) && |ai[i].hashtags| <= MaxHashtags && ai[i].wordCount >= 1)
      && (forall i :: 0 <= i < count ==>
            offline[i].platform == PlatformName(input.platform) && |offline[i].hashtags| <= MaxHashtags)
  {
    var ai := GenerateMultiplePostsWithAI(input, count, fetched, choices);
    forall i | 0 <= i < count
      ensures ai[i].platform == PlatformName(input.platform) && |ai[i].hashtags| <= MaxHashtags && ai[i].wordCount >= 1
    {
      AiPostShape(input, fetched[i], choices[i]);
    }
  }

  /** When every call fails, the online batch is the offline batch, post by post, and every
      body is non-empty. A call fails when the network does, when the route has no key, or
      when the text service fails or sends no choices for the body, the hashtags or the
      call to action. */
  lemma FailingBackendGivesTemplateBatch(input: PostInput, count: nat, fetched: seq<FetchResult>,
                                         choices: seq<Choices>)
    requires |fetched| == count && |choices| == count
    requires forall i :: 0 <= i < count ==> ValidChoices(input, choices[i])
    requires forall i :: 0 <= i < count ==>
      || fetched[i].NetworkError? || !fetched[i].apiKeyConfigured
      || PerplexityClient.GenerateContent(fetched[i].replies.body).None?
      || PerplexityClient.GenerateContent(fetched[i].replies.hashtags).None?
      || PerplexityClient.GenerateContent(fetched[i].replies.cta).None?
    ensures GenerateMultiplePostsWithAI(input, count, fetched, choices) == GenerateMultiplePosts(input, count, choices)
    ensures forall i :: 0 <= i < count ==> GenerateMultiplePosts(input, count, choices)[i].content != ""
  {
    var ai := GenerateMultiplePostsWithAI(input, count, fetched, choices);
    var offline := GenerateMultiplePosts(input, count, choices);
    forall i | 0 <= i < count
      ensures ai[i] == offline[i] && offline[i].content != ""
    {
      assert StartsWith(offline[i].content, Opening(input, choices[i]));
    }
  }
}
