/** The classification a preview card applies to one post: the platform's length limits,
    the two limit checks, the status text, the length warning and the LinkedIn tip, the
    displayed hashtag badges and the text placed on the clipboard. */
module PostPreview {
  import opened Text
  import opened Posts
  import TemplateGenerator

  /** A platform's total and preview character limits, with the hint shown beside the count. */
  datatype Limits = Limits(total: nat, preview: nat, description: string)

  /** `getPlatformLimits`: a table keyed on the post's platform string, with a default for
      anything else. */
  function PlatformLimits(platform: string): (r: Limits)
    ensures r.total >= r.preview > 0
    ensures platform == "instagram" ==> r.total == 2200 && r.preview == 125
    ensures platform == "twitter" ==> r.total == 280 && r.preview == 280
    ensures platform == "linkedin" ==> r.total == 3000 && r.preview == 800
    ensures platform == "tiktok" ==> r.total == 2200 && r.preview == 150
    ensures platform == "facebook" ==> r.total == 63206 && r.preview == 40
    ensures ParsePlatform(platform).None? ==> r == Limits(280, 280, "Standard limit")
  {
    match ParsePlatform(platform)
    case Some(Instagram) => Limits(2200, 125, "First 125 chars show before \"more\"")
    case Some(Twitter) => Limits(280, 280, "Twitter character limit")
    case Some(LinkedIn) => Limits(3000, 800, "Medium-long content (800-1200 chars optimal)")
    case Some(TikTok) => Limits(2200, 150, "Optimal for engagement")
    case Some(Facebook) => Limits(63206, 40, "Optimal for engagement")
    case None => Limits(280, 280, "Standard limit")
  }

  /** The status icon beside the status text. */
  datatype StatusIcon = CheckIcon | InfoIcon | AlertIcon

  /** What a preview card shows about one post. */
  datatype Classification = Classification(
    limits: Limits,
    length: nat,
    withinPreview: bool,
    withinTotal: bool,
    icon: StatusIcon,
    status: string,
    lengthWarning: bool,
    linkedInTip: bool)

  const LinkedInTarget: nat := 800
  const LinkedInTipBelow: nat := 600

  /** `getStatusText`. */
  function StatusText(platform: string, length: nat, withinPreview: bool): (r: string)
    ensures r == "⚠ Long" <==> platform != "linkedin" && !withinPreview
    ensures r == "✓ Professional Length" <==> platform == "linkedin" && length >= LinkedInTarget
    ensures r == "📝 Expand for LinkedIn" <==> platform == "linkedin" && length < LinkedInTarget
  {
    if platform == "linkedin" then
      (if length >= LinkedInTarget then "✓ Professional Length" else "📝 Expand for LinkedIn")
    else if withinPreview then "✓ Viral Length" else "⚠ Long"
  }

  /** `getStatusIcon`: the same case split as the status text. */
  function StatusIconOf(platform: string, length: nat, withinPreview: bool): (r: StatusIcon)
    ensures r == AlertIcon <==> StatusText(platform, length, withinPreview) == "⚠ Long"
    ensures r == InfoIcon <==> StatusText(platform, length, withinPreview) == "📝 Expand for LinkedIn"
    ensures r == CheckIcon <==>
      StatusText(platform, length, withinPreview) in {"✓ Professional Length", "✓ Viral Length"}
  {
    if platform == "linkedin" then (if length >= LinkedInTarget then CheckIcon else InfoIcon)
    else if withinPreview then CheckIcon else AlertIcon
  }

  /** The card's reading of a post. */
  function Classify(post: GeneratedPost): (r: Classification)
    ensures r.limits == PlatformLimits(post.platform) && r.length == |post.content|
    ensures r.withinPreview <==> |post.content| <= r.limits.preview
    ensures r.withinTotal <==> |post.content| <= r.limits.total
    ensures r.withinPreview ==> r.withinTotal
    ensures r.lengthWarning <==> !r.withinPreview && post.platform != "linkedin"
    ensures r.linkedInTip <==> post.platform == "linkedin" && |post.content| < LinkedInTipBelow
    ensures !(r.lengthWarning && r.linkedInTip)
    ensures post.platform == "linkedin" ==>
      (r.status == "✓ Professional Length" <==> |post.content| >= LinkedInTarget)
      && (r.status == "📝 Expand for LinkedIn" <==> |post.content| < LinkedInTarget)
    ensures post.platform != "linkedin" ==>
      (r.status == "✓ Viral Length" <==> r.withinPreview)
      && (r.status == "⚠ Long" <==> !r.withinPreview)
    ensures r.icon == CheckIcon <==>
      r.status == "✓ Professional Length" || r.status == "✓ Viral Length"
  {
    var limits := PlatformLimits(post.platform);
    var length := |post.content|;
    var withinPreview := length <= limits.preview;
    Classification(
      limits := limits,
      length := length,
      withinPreview := withinPreview,
      withinTotal := length <= limits.total,
      icon := StatusIconOf(post.platform, length, withinPreview),
      status := StatusText(post.platform, length, withinPreview),
      lengthWarning := !withinPreview && post.platform != "linkedin",
      linkedInTip := post.platform == "linkedin" && length < LinkedInTipBelow)
  }

  /** A LinkedIn post of 600 to 799 characters gets neither the tip nor the warning, yet
      is still told to expand. */
  lemma LinkedInMiddleBand(post: GeneratedPost)
    requires post.platform == "linkedin" && LinkedInTipBelow <= |post.content| < LinkedInTarget
    ensures var r := Classify(post);
      !r.lengthWarning && !r.linkedInTip && r.status == "📝 Expand for LinkedIn"
  {
  }

  /** On every platform except LinkedIn, the warning and the "⚠ Long" status come together. */
  lemma WarningMatchesStatus(post: GeneratedPost)
    requires post.platform != "linkedin"
    ensures Classify(post).lengthWarning <==> Classify(post).status == "⚠ Long"
  {
  }

  /** The badges under a post: each tag with a leading `#`. */
  function HashtagBadges(post: GeneratedPost): (r: seq<string>)
    ensures |r| == |post.hashtags|
    ensures forall i :: 0 <= i < |r| ==> r[i] == NormalizeTag(post.hashtags[i])
    ensures forall i :: 0 <= i < |r| ==> !StartsWith(post.hashtags[i], "#") ==> r[i] == "#" + post.hashtags[i]
    ensures forall i :: 0 <= i < |r| ==> StartsWith(r[i], "#")
    ensures forall i :: 0 <= i < |r| ==> (StartsWith(post.hashtags[i], "#") <==> r[i] == post.hashtags[i])
  {
    TemplateGenerator.NormalizedTags(post.hashtags)
  }

  /** The badges of already-normalised tags are those tags. */
  lemma HashtagBadgesIdempotent(post: GeneratedPost)
    ensures HashtagBadges(post.(hashtags := HashtagBadges(post))) == HashtagBadges(post)
  {
    var b := HashtagBadges(post);
    var bb := HashtagBadges(post.(hashtags := b));
    forall i | 0 <= i < |b|
      ensures bb[i] == b[i]
    {
      NormalizeTagIdempotent(post.hashtags[i]);
    }
  }

  /** `handleCopy`'s text: for every tag list, the content, a blank line and the raw tags
      joined by single spaces. */
  function CopyText(post: GeneratedPost): (r: string)
    ensures StartsWith(r, post.content + "\n\n")
    ensures r == post.content + "\n\n" + Join(post.hashtags, " ")
  {
    var r := post.content + "\n\n" + Join(post.hashtags, " ");
    assert r[..|post.content + "\n\n"|] == post.content + "\n\n";
    r
  }

  /** A post without tags is copied as its content and a blank line. */
  lemma CopyTextNoTags(post: GeneratedPost)
    requires post.hashtags == []
    ensures CopyText(post) == post.content + "\n\n"
  {
    JoinStep([], [], " ");
  }

  /** The copied text after the blank line includes every raw tag, spaces or not. */
  lemma CopyTextKeepsEveryTag(post: GeneratedPost, i: nat)
    requires i < |post.hashtags|
    ensures var r := CopyText(post);
      && |post.content| + 2 <= |r|
      && Contains(r[|post.content| + 2..], post.hashtags[i])
  {
    var r := CopyText(post);
    assert r[|post.content| + 2..] == Join(post.hashtags, " ");
    JoinContainsEach(post.hashtags, " ", i);
  }

  /** The clipboard text drops nothing: splitting its tag block on spaces gives back the
      raw tags when none contains a space. */
  lemma CopyTextRecoversTags(post: GeneratedPost)
    requires |post.hashtags| >= 1
    requires forall i :: 0 <= i < |post.hashtags| ==> ' ' !in post.hashtags[i]
    ensures Split(CopyText(post)[|post.content| + 2..], ' ') == post.hashtags
  {
    var r := CopyText(post);
    assert r[|post.content| + 2..] == Join(post.hashtags, " ");
    SplitJoin(post.hashtags, ' ');
  }

  /** Outside LinkedIn, copying a post whose tags all carry `#` gives the exported text;
      a tag without `#` is copied bare but exported with one. */
  lemma CopyTextMatchesExport(post: GeneratedPost)
    requires post.platform != "linkedin"
    requires forall i :: 0 <= i < |post.hashtags| ==> StartsWith(post.hashtags[i], "#")
    ensures CopyText(post) == TemplateGenerator.FormatPostForPlatform(post)
  {
    assert TemplateGenerator.NormalizedTags(post.hashtags) == post.hashtags;
  }

  /** A bare tag is where the two texts differ. */
  lemma CopyTextDiffersOnBareTag()
    ensures var post := GeneratedPost("Hi", ["sale"], [], "", "", 1, "instagram");
      CopyText(post) == "Hi\n\nsale" && TemplateGenerator.FormatPostForPlatform(post) == "Hi\n\n#sale"
  {
    var post := GeneratedPost("Hi", ["sale"], [], "", "", 1, "instagram");
    assert "sale"[..1] == "s";
    assert NormalizeTag("sale") == "#sale";
    assert TemplateGenerator.NormalizedTags(post.hashtags) == ["#sale"];
  }
}
