/** The `POST /api/generate-post` handler: request validation, the API-key check, the
    three backend calls (their replies are inputs here), and the assembly of one
    `GeneratedPost` from the parsed replies. */
module GenerateRoute {
  import opened Text
  import opened Posts
  import opened PerplexityClient

  /** `customHashtags` in the JSON body: missing (defaults to `[]`), `null` (no default
      applies, and spreading it throws), or a list. */
  datatype TagsField = Absent | Null | Tags(tags: seq<string>)

  /** The decoded JSON body; `None` is a missing or `null` field. */
  datatype RequestBody = RequestBody(
    business: Option<string>,
    businessDescription: Option<string>,
    product: Option<string>,
    platform: Option<string>,
    audience: Option<string>,
    tone: Option<string>,
    goal: Option<string>,
    customHashtags: TagsField)

  /** The handler's answer: the post (status 200) or an error status and message. */
  datatype ApiResponse = Success(post: GeneratedPost) | Failure(status: nat, error: string)

  /** The three backend exchanges of one request: body text, hashtags, call to action. */
  datatype BackendReplies = BackendReplies(body: BackendReply, hashtags: BackendReply, cta: BackendReply)

  const MissingFieldsError := "Missing required fields"
  const MissingKeyError := "Perplexity API key not configured"
  const GenerationError := "Failed to generate post. Please try again."

  /** The emoji list every backend-generated post carries. */
  const DefaultEmojis: seq<string> := ["🚀", "✨", "💫"]

  /** A JavaScript-truthy string field: present and not empty. */
  predicate Filled(field: Option<string>) {
    field.Some? && field.value != ""
  }

  predicate HasRequiredFields(b: RequestBody) {
    Filled(b.business) && Filled(b.product) && Filled(b.platform)
    && Filled(b.audience) && Filled(b.tone) && Filled(b.goal)
  }

  /** `[...hashtags, ...customHashtags].slice(0, 8)`: no de-duplication. */
  function MergeHashtags(generated: seq<string>, custom: seq<string>): (r: seq<string>)
    ensures |r| <= MaxHashtags
    ensures |r| == if |generated| + |custom| <= MaxHashtags then |generated| + |custom| else MaxHashtags
    ensures r == (generated + custom)[..|r|]
  {
    CapHashtags(generated + custom)
  }

  /** The generated tags come first; the custom tags follow in their own order, all of them
      when the total fits the cap. */
  lemma MergeHashtagsOrder(generated: seq<string>, custom: seq<string>)
    requires |generated| + |custom| <= MaxHashtags
    ensures MergeHashtags(generated, custom)[..|generated|] == generated
    ensures MergeHashtags(generated, custom)[|generated|..] == custom
  {
    var r := MergeHashtags(generated, custom);
    assert r == generated + custom;
  }

  /** Duplicates survive the merge: a custom tag equal to a generated one appears twice. */
  lemma MergeHashtagsKeepsDuplicates(tag: string)
    ensures MergeHashtags([tag], [tag]) == [tag, tag]
  {
    assert [tag] + [tag] == [tag, tag];
  }

  /** Assembly of the post from the three backend strings. */
  function AssemblePost(content: string, hashtagReply: string, ctaReply: string,
                        business: string, platform: string, custom: seq<string>): (r: GeneratedPost)
    ensures r.content == Trim(content)
    ensures r.wordCount == CountChar(content, ' ') + 1
    ensures r.hashtags == MergeHashtags(ParseHashtags(hashtagReply, platform), custom)
    ensures r.emojis == DefaultEmojis
    ensures r.cta == ParseCta(ctaReply, business).cta
    ensures r.buttonText == ParseCta(ctaReply, business).buttonText
    ensures r.platform == platform
  {
    var cta := ParseCta(ctaReply, business);
    assert DefaultEmojis[..3] == DefaultEmojis;
    GeneratedPost(
      content := Trim(content),
      hashtags := MergeHashtags(ParseHashtags(hashtagReply, platform), custom),
      emojis := DefaultEmojis[..3],
      cta := cta.cta,
      buttonText := cta.buttonText,
      wordCount := WordCount(content),
      platform := platform)
  }

  /** The handler. `body` is `None` when the request body is not parsable JSON or is
      `null`: destructuring then throws and the catch answers 500. Any other JSON value
      destructures, and the fields it lacks are `None`.
      `apiKeyConfigured` stands for the environment lookup of the key. */
  function Post(body: Option<RequestBody>, apiKeyConfigured: bool, replies: BackendReplies): (r: ApiResponse)
    ensures body.None? ==> r == Failure(500, GenerationError)
    ensures body.Some? && !HasRequiredFields(body.value) ==> r == Failure(400, MissingFieldsError)
    ensures body.Some? && HasRequiredFields(body.value) && !apiKeyConfigured ==>
      r == Failure(500, MissingKeyError)
    ensures r.Failure? ==> r.status in {400, 500}
    ensures r.Success? <==>
      && body.Some? && HasRequiredFields(body.value) && apiKeyConfigured
      && GenerateContent(replies.body).Some?
      && GenerateContent(replies.hashtags).Some?
      && GenerateContent(replies.cta).Some?
      && !body.value.customHashtags.Null?
    ensures r.Failure? && r.status == 500 && r.error != MissingKeyError ==> r.error == GenerationError
    ensures r.Success? ==>
      var b := body.value;
      var custom := if b.customHashtags.Tags? then b.customHashtags.tags else [];
      r.post == AssemblePost(GenerateContent(replies.body).value,
                             GenerateContent(replies.hashtags).value,
                             GenerateContent(replies.cta).value,
                             b.business.value, b.platform.value, custom)
  {
    match body
    case None => Failure(500, GenerationError)
    case Some(b) =>
      if !HasRequiredFields(b) then Failure(400, MissingFieldsError)
      else if !apiKeyConfigured then Failure(500, MissingKeyError)
      else
        var content := GenerateContent(replies.body);
        var hashtags := GenerateContent(replies.hashtags);
        var cta := GenerateContent(replies.cta);
        if content.None? || hashtags.None? || cta.None? then Failure(500, GenerationError)
        else
          match b.customHashtags
          case Null => Failure(500, GenerationError)
          case Absent =>
            Success(AssemblePost(content.value, hashtags.value, cta.value, b.business.value, b.platform.value, []))
          case Tags(custom) =>
            Success(AssemblePost(content.value, hashtags.value, cta.value, b.business.value, b.platform.value, custom))
  }

  /** A successful post has at most 8 tags, the fixed emoji list, a word count of at least
      one, non-empty call-to-action texts, and the request's platform. */
  lemma SuccessfulPostShape(body: Option<RequestBody>, apiKeyConfigured: bool, replies: BackendReplies)
    requires Post(body, apiKeyConfigured, replies).Success?
    ensures var p := Post(body, apiKeyConfigured, replies).post;
      && |p.hashtags| <= MaxHashtags
      && p.emojis == ["🚀", "✨", "💫"]
      && p.wordCount >= 1
      && p.cta != "" && p.buttonText != ""
      && Some(p.platform) == body.value.platform
  {
  }

  /** `businessDescription` is not required: a body lacking only it still reaches generation. */
  lemma DescriptionNotRequired(b: RequestBody, replies: BackendReplies)
    requires HasRequiredFields(b) && b.businessDescription.None? && b.customHashtags.Absent?
    requires GenerateContent(replies.body).Some? && GenerateContent(replies.hashtags).Some?
    requires GenerateContent(replies.cta).Some?
    ensures Post(Some(b), true, replies).Success?
  {
  }
}
