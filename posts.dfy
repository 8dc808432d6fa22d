/** The records every part of the generator shares: the request a post is made
    from, the post itself, and the small rules about hashtags and word counts that
    several components apply in the same way. */
module Posts {
  import opened Text

  datatype Option<T> = None | Some(value: T)

  datatype Platform = Instagram | Twitter | LinkedIn | TikTok | Facebook

  datatype Tone = Humorous | Inspirational | Bold | Minimalist | Quirky | Premium | Playful | Professional

  datatype Goal = Engagement | Discovery | Shares | Signups | Sales | Awareness

  /** The identifier a platform travels under in requests and in `GeneratedPost.platform`. */
  function PlatformName(p: Platform): string {
    match p
    case Instagram => "instagram"
    case Twitter => "twitter"
    case LinkedIn => "linkedin"
    case TikTok => "tiktok"
    case Facebook => "facebook"
  }

  /** Which platform, if any, a platform identifier names. */
  function ParsePlatform(s: string): (r: Option<Platform>)
    ensures r.Some? ==> PlatformName(r.value) == s
    ensures r.None? ==> forall p :: PlatformName(p) != s
  {
    if s == "instagram" then Some(Instagram)
    else if s == "twitter" then Some(Twitter)
    else if s == "linkedin" then Some(LinkedIn)
    else if s == "tiktok" then Some(TikTok)
    else if s == "facebook" then Some(Facebook)
    else None
  }

  lemma ParsePlatformName(p: Platform)
    ensures ParsePlatform(PlatformName(p)) == Some(p)
  {
  }

  function ToneName(t: Tone): string {
    match t
    case Humorous => "humorous"
    case Inspirational => "inspirational"
    case Bold => "bold"
    case Minimalist => "minimalist"
    case Quirky => "quirky"
    case Premium => "premium"
    case Playful => "playful"
    case Professional => "professional"
  }

  function GoalName(g: Goal): string {
    match g
    case Engagement => "engagement"
    case Discovery => "discovery"
    case Shares => "shares"
    case Signups => "signups"
    case Sales => "sales"
    case Awareness => "awareness"
  }

  /** `PostInput`; an absent `customHashtags` behaves as the empty list everywhere it is read. */
  datatype PostInput = PostInput(
    business: string,
    businessDescription: string,
    product: string,
    platform: Platform,
    audience: string,
    tone: Tone,
    goal: Goal,
    customHashtags: seq<string>)

  /** `GeneratedPost`, the one output shape of both generation paths. */
  datatype GeneratedPost = GeneratedPost(
    content: string,
    hashtags: seq<string>,
    emojis: seq<string>,
    cta: string,
    buttonText: string,
    wordCount: int,
    platform: string)

  /** At most this many hashtags are kept on a post. */
  const MaxHashtags: nat := 8

  /** `tags.slice(0, 8)`. */
  function CapHashtags(tags: seq<string>): (r: seq<string>)
    ensures |r| <= MaxHashtags
    ensures |r| == if |tags| <= MaxHashtags then |tags| else MaxHashtags
    ensures r == tags[..|r|]
  {
    if |tags| <= MaxHashtags then tags else tags[..MaxHashtags]
  }

  /** `tag.startsWith('#') ? tag : '#' + tag`. */
  function NormalizeTag(tag: string): (r: string)
    ensures StartsWith(r, "#")
    ensures StartsWith(tag, "#") <==> r == tag
    ensures !StartsWith(tag, "#") ==> r == "#" + tag
  {
    if StartsWith(tag, "#") then tag else "#" + tag
  }

  /** Normalising a tag twice is the same as normalising it once. */
  lemma NormalizeTagIdempotent(tag: string)
    ensures NormalizeTag(NormalizeTag(tag)) == NormalizeTag(tag)
  {
  }

  /** `text.split(' ').length`: the posts' approximate word count. */
  function WordCount(text: string): (r: nat)
    ensures r == CountChar(text, ' ') + 1
  {
    SplitLength(text, ' ');
    |Split(text, ' ')|
  }
}
