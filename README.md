# Viral post generator — a Dafny model

This project models the core of a social-media post generator. A `PostInput` holds a
business, its description, a product, a target platform, an audience, a tone, a goal and
optional custom hashtags. From it the generator makes `GeneratedPost` records: body text,
hashtags, emojis, a call to action, a button label, a word count and the platform. There
are two ways to make a post:

- **Template compositor** (`lib/viral-post-generator.ts`). It fills static phrase tables.
- **Backend route** (`app/api/generate-post/route.ts`). It asks a text-generation service
  for the body, the hashtags and the call to action, then parses the three replies
  (`lib/perplexity-client.ts`).

Around these sit:

- a preview card that classifies a post by length (`components/post-preview.tsx`);
- a chat front end that parses a free-text request into a `PostInput` (`components/viral-post-generator.tsx`);
- a form front end that edits a `PostInput` and its hashtag list (`Downloads/PromotionAI/components/viral-post-generator.tsx`).

Modules, one per source file plus two shared ones:

| module | file | models |
|---|---|---|
| `Text` | `text.dfy` | JavaScript string built-ins the code relies on: `trim`, `\s`, ASCII `toLowerCase`, `split`, `join`, `includes`/`indexOf`, `replace`, number rendering |
| `Posts` | `posts.dfy` | `PostInput`, `GeneratedPost`, the enumerations, the 8-tag cap, tag normalisation, word count |
| `PerplexityClient` | `perplexity_client.dfy` | `lib/perplexity-client.ts`: lookup tables, requirement text, request options, reply extraction, hashtag and call-to-action parsing |
| `GenerateRoute` | `generate_route.dfy` | `app/api/generate-post/route.ts`: validation, key check, failure statuses, hashtag merge, post assembly |
| `TemplateGenerator` | `template_generator.dfy` | `lib/viral-post-generator.ts`: tables, template post, formatter, batches, per-post fallback from the route to the template |
| `PostPreview` | `post_preview.dfy` | `components/post-preview.tsx`: limits, status, warning and tip, badges, copy text |
| `ChatGenerator` | `chat_generator.dfy` | `components/viral-post-generator.tsx`: `parseUserInput` (imperative, with its loops and if/else chains) and the chat session's send guard (a class) |
| `PostForm` | `post_form.dfy` | `Downloads/PromotionAI/components/viral-post-generator.tsx`: the form state as a class with its update methods, and the export file name |

How the inputs that cannot be computed are modelled:

- **Randomness.** Each `randomFrom` becomes an index, and each `randomEmojis(k)` call becomes its own permutation of the pool's indices. Both are gathered in `TemplateGenerator.Choices`, and `ValidChoices` states the ranges `Math.random` guarantees.
- **The text-generation service.** Each backend call is a `BackendReply`: either a failure, or a decoded body whose `choices` list and whose first `message.content` may each be missing.
- **The route's API key.** The key lookup is a boolean parameter.
- **The browser's `fetch`.** A call either fails (network error) or reaches the route. In the second case the answer is the route's own result for the same request.

Strings are `seq<char>`, so lengths count Unicode code points. JavaScript's `.length`
counts UTF-16 code units, so the two differ for characters outside the Basic
Multilingual Plane, which includes most emojis.

## Model

| member | source | states |
|---|---|---|
| Text.Trim | lib/perplexity-client.ts:211 | `trim` computed as `trimEnd` of `trimStart`; what it yields is stated by the `TrimShape`, `TrimIdempotent` and `TrimEmptyIff` rows |
| Text.TrimStart | lib/perplexity-client.ts:211 | the result is a suffix of the input, everything cut is white space, and the result does not start with white space |
| Text.TrimEnd | lib/perplexity-client.ts:211 | the result is a prefix of the input, everything cut is white space, and the result does not end with white space |
| Text.TrimShape | lib/perplexity-client.ts:211 | `trim` yields a contiguous piece of the input with no white space at either end |
| Text.TrimIdempotent | lib/perplexity-client.ts:210-211 | trimming twice equals trimming once |
| Text.TrimEmptyIff | components/viral-post-generator.tsx:138 | a string trims to empty exactly when every character is white space |
| Text.TrimOfNoWhitespace | components/viral-post-generator.tsx:254 | a string without white space is unchanged by `trim` |
| Text.IndexOf | lib/perplexity-client.ts:267 | the result is -1 or a position of the pattern, and the pattern occurs at no earlier position |
| Text.ContainsAt | lib/perplexity-client.ts:267 | an occurrence at a known position makes `includes` true |
| Text.ContainsMiddle | lib/viral-post-generator.ts:140-151 | `a + t + b` includes `t` |
| Text.RemoveFirst | lib/perplexity-client.ts:271-272 | `replace(t, '')` removes exactly the first occurrence; with no occurrence it changes nothing |
| Text.Split | lib/viral-post-generator.ts:169 | `split(c)` for a one-character separator: always at least one piece |
| Text.SplitLength | lib/viral-post-generator.ts:169 | `split(c)` yields one more piece than there are `c` characters |
| Text.SplitPiecesFree | lib/viral-post-generator.ts:157 | no piece of `split(c)` contains `c` |
| Text.JoinSplit | lib/perplexity-client.ts:208-209 | joining the pieces of `split(c)` with `c` gives back the input |
| Text.SplitJoin | lib/viral-post-generator.ts:183 | splitting a `c`-join of `c`-free pieces gives back the pieces |
| Text.SplitOfFree | lib/perplexity-client.ts:266 | a string without `c` splits into itself alone |
| Text.SplitFirstPiece | lib/viral-post-generator.ts:157 | the first piece of a split is the text before the first separator |
| Text.Join | lib/viral-post-generator.ts:183 | `join(sep)`: the elements with `sep` between neighbours; its cases are the `JoinStep` row |
| Text.JoinStep | lib/viral-post-generator.ts:183 | `join` of no elements is empty, of one element is that element, and of a longer list is the head, the separator and the join of the rest |
| Text.JoinContainsEach | lib/viral-post-generator.ts:183 | a join includes every element it joins, whatever the elements contain |
| Text.Lower | lib/viral-post-generator.ts:156-157 | `toLowerCase` keeps the length and maps each character separately |
| Text.LowerIdempotent | lib/viral-post-generator.ts:156-157 | lower-casing leaves no ASCII capitals and is idempotent |
| Text.RemoveWhitespace | lib/viral-post-generator.ts:156 | `replace(/\s+/g, '')` leaves no white space and never lengthens |
| Text.RemoveWhitespaceAppend | lib/viral-post-generator.ts:156 | removing white space distributes over concatenation |
| Text.RemoveWhitespaceIdentity | lib/viral-post-generator.ts:156 | a string without white space is unchanged |
| Text.RemoveWhitespaceOfRun | lib/viral-post-generator.ts:156 | a run made only of white-space characters, of any `\s` kind, is removed entirely |
| Text.ReplaceWhitespaceRuns | Downloads/PromotionAI/components/viral-post-generator.tsx:97 | `replace(/\s+/g, rep)`: each maximal white-space run becomes one `rep`, as the `ReplaceWhitespaceRunsOfRun` row states |
| Text.ReplaceWhitespaceRunsFree | Downloads/PromotionAI/components/viral-post-generator.tsx:97 | replacing white-space runs with a white-space-free string leaves no white space |
| Text.ReplaceWhitespaceRunsIdentity | Downloads/PromotionAI/components/viral-post-generator.tsx:97 | a string without white space is unchanged by the replacement |
| Text.TrimStartOfRun | lib/perplexity-client.ts:211 | `trimStart` removes exactly a leading white-space run |
| Text.ReplaceLeadingRun | Downloads/PromotionAI/components/viral-post-generator.tsx:97 | a leading white-space run before a white-space-free string becomes one replacement |
| Text.ReplaceStep | Downloads/PromotionAI/components/viral-post-generator.tsx:97 | a character that is not white space is copied unchanged |
| Text.ReplaceAfterPlainPrefix | Downloads/PromotionAI/components/viral-post-generator.tsx:97 | a white-space-free prefix is copied unchanged ahead of the replaced rest |
| Text.ReplaceWhitespaceRunsOfRun | Downloads/PromotionAI/components/viral-post-generator.tsx:97 | a white-space run between two white-space-free strings becomes exactly one replacement |
| Text.NatToString | lib/perplexity-client.ts:132 | the decimal rendering of a number is non-empty and all digits |
| Text.NatToStringRoundTrip | lib/perplexity-client.ts:132 | the decimal rendering of a number is all digits, non-empty, and reads back as the number |
| Posts.ParsePlatform | lib/viral-post-generator.ts:5 | an identifier is recognised exactly when it is the name of one of the five platforms |
| Posts.ParsePlatformName | lib/viral-post-generator.ts:5 | every platform's name is recognised as that platform |
| Posts.CapHashtags | lib/viral-post-generator.ts:159 | `slice(0, 8)` keeps at most 8 tags, all of them when there are at most 8, as a prefix |
| Posts.NormalizeTag | lib/viral-post-generator.ts:183 | the result starts with `#`; it is the tag itself exactly when the tag already starts with `#`, and otherwise `#` followed by the tag |
| Posts.NormalizeTagIdempotent | components/post-preview.tsx:181 | normalising a tag twice equals normalising it once |
| Posts.WordCount | lib/viral-post-generator.ts:169 | `split(' ').length` is the number of spaces plus one |
| PerplexityClient.PlatformLimits | lib/perplexity-client.ts:81-89 | per-platform character limits; an unrecognised identifier gets the instagram entry |
| PerplexityClient.HashtagLimits | lib/perplexity-client.ts:162-170 | per-platform hashtag ceilings, between 3 and 30; an unrecognised identifier gets the instagram entry |
| PerplexityClient.UnknownPlatformIsInstagram | lib/perplexity-client.ts:162-170 | both tables resolve any unrecognised identifier to their instagram entries |
| PerplexityClient.BodyLengthRequirement | lib/perplexity-client.ts:132 | LinkedIn gets the 800-1200 line; every other platform gets `Under N characters` |
| PerplexityClient.BodyLengthRequirementNumber | lib/perplexity-client.ts:132 | the number quoted in `Under N characters` is the resolved platform limit |
| PerplexityClient.PromptOptions | lib/perplexity-client.ts:147-262 | body: 400 tokens on LinkedIn, 150 elsewhere, temperature 0.85; hashtags: 100 tokens at 0.75; call to action: 80 tokens at 0.8 |
| PerplexityClient.LinkedInBodyLongest | lib/perplexity-client.ts:147-262 | the LinkedIn body request has the largest budget; only the body options depend on the platform |
| PerplexityClient.GenerateContent | lib/perplexity-client.ts:43-67 | fails exactly on a failed exchange or a missing `choices` list; otherwise the first choice's content when present, and `''` when the list is empty or the first content is absent |
| PerplexityClient.FlatMapAppend | lib/perplexity-client.ts:208-211 | a flat map over lines distributes over concatenation |
| PerplexityClient.FlatMapMembership | lib/perplexity-client.ts:208-211 | a string is in a flat map exactly when some line contributes it |
| PerplexityClient.HashtagLinesShape | lib/perplexity-client.ts:210-211 | every kept line is trimmed and starts with `#` |
| PerplexityClient.HashtagLinesAppend | lib/perplexity-client.ts:210-211 | filtering distributes over concatenation, so kept lines stay in reply order |
| PerplexityClient.HashtagLinesMembership | lib/perplexity-client.ts:210-211 | a string is kept exactly when it is the trim of a line whose trim starts with `#` |
| PerplexityClient.ParseHashtags | lib/perplexity-client.ts:207-212 | at most the platform's ceiling of tags, each trimmed and starting with `#`, as a prefix of the kept lines in order |
| PerplexityClient.FirstContaining | lib/perplexity-client.ts:267-268 | `find` picks the first line containing the label, or none when no line does |
| PerplexityClient.LabelledValue | lib/perplexity-client.ts:270-271 | with no line holding the label the fallback is used, and a non-empty fallback never gives an empty value |
| PerplexityClient.DefaultButtonText | lib/perplexity-client.ts:271 | the default button label "Try B 🚀" contains the business |
| PerplexityClient.ParseCta | lib/perplexity-client.ts:265-273 | call to action and button text come from the first `CTA:` or `BUTTON:` line with the first label removed and the rest trimmed; when no line has the label or the value is empty, the defaults are used; neither value is ever empty |
| PerplexityClient.LabelCutKeepsSurroundings | lib/perplexity-client.ts:271 | removing the first label from `pre + label + post` gives `pre + post` when `pre` holds no label |
| PerplexityClient.CtaKeepsTextBeforeLabel | lib/perplexity-client.ts:266-271 | text before `CTA:` on the first labelled line is kept in the call to action |
| PerplexityClient.SplitFirstLine | lib/perplexity-client.ts:266 | the first line of a reply built from lines is its first line |
| GenerateRoute.MergeHashtags | app/api/generate-post/route.ts:73 | the merged list is the first 8 of generated followed by custom |
| GenerateRoute.MergeHashtagsOrder | app/api/generate-post/route.ts:73 | when the total fits, generated tags come first and every custom tag follows in order |
| GenerateRoute.MergeHashtagsKeepsDuplicates | app/api/generate-post/route.ts:73 | a custom tag equal to a generated one appears twice |
| GenerateRoute.AssemblePost | app/api/generate-post/route.ts:73-86 | content is the trimmed body; word count comes from the untrimmed body; tags are the merge; emojis are the fixed three; call to action and button come from the parsed reply; the platform is echoed |
| GenerateRoute.Post | app/api/generate-post/route.ts:5-98 | a missing required field gives 400; otherwise a missing key gives 500 with its own message; any backend failure gives 500 with the generic message; success holds exactly when all checks pass and all three calls succeed, and then the post is the assembly |
| GenerateRoute.SuccessfulPostShape | app/api/generate-post/route.ts:73-86 | a successful post has at most 8 tags, the fixed emojis, a word count of at least 1, non-empty call to action and button, and the request's platform |
| GenerateRoute.DescriptionNotRequired | app/api/generate-post/route.ts:20 | a request without a description still reaches generation |
| TemplateGenerator.ToneEmojisDistinct | lib/viral-post-generator.ts:22-63 | no tone's emoji pool repeats an emoji |
| TemplateGenerator.ToneTemplatesShape | lib/viral-post-generator.ts:22-63 | every tone has 5 openers, 7 distinct emojis and 3 call-to-action fragments |
| TemplateGenerator.PlatformHashtagsShape | lib/viral-post-generator.ts:65-71 | every platform has 6 tags |
| TemplateGenerator.GoalTemplatesShape | lib/viral-post-generator.ts:73-98 | every goal has 4 call-to-action lines and 2 or 3 questions |
| TemplateGenerator.RandomEmojis | lib/viral-post-generator.ts:132-135 | the first `count` entries of a shuffle: exactly `count` pool members, distinct when the pool is |
| TemplateGenerator.Paragraphs | lib/viral-post-generator.ts:140-151 | three blank-line-separated paragraphs: starts with the first, contains the middle, ends with the last |
| TemplateGenerator.Closing | lib/viral-post-generator.ts:140-151 | the closing line is a question of the goal on LinkedIn and a goal line elsewhere |
| TemplateGenerator.TwitterLayout | lib/viral-post-generator.ts:142 | starts with the opener, names the business in "just dropped something special!", ends with the goal line |
| TemplateGenerator.LinkedInLayout | lib/viral-post-generator.ts:145 | starts with the opener and a full stop, contains the description, ends with "What this means for A: " and the question |
| TemplateGenerator.FeedLayout | lib/viral-post-generator.ts:148-150 | starts with the opener, contains "B - description", ends with the goal line and an emoji |
| TemplateGenerator.TemplateContent | lib/viral-post-generator.ts:137-151 | the per-platform layout: opener and product first, then the platform's middle paragraph and closing line |
| TemplateGenerator.BusinessTag | lib/viral-post-generator.ts:156 | `#` followed by the business with white space removed and lower-cased |
| TemplateGenerator.AudienceTag | lib/viral-post-generator.ts:157 | `#` followed by the lower-cased first space-separated word of the audience |
| TemplateGenerator.BusinessTagOfTwoWords | lib/viral-post-generator.ts:156 | for two words without white space and any run of white-space characters between them (spaces, tabs, newlines), the tag is `#` and the lower-cased words run together ("Pure Sip" and "Pure\tSip" give "#puresip") |
| TemplateGenerator.AudienceTagFirstWord | lib/viral-post-generator.ts:157 | only the lower-cased text before the first space is kept ("Gen Z runners" gives "#gen") |
| TemplateGenerator.TemplateHashtags | lib/viral-post-generator.ts:153-159 | three platform tags, the business tag, the audience tag, then custom tags in order, capped at 8 |
| TemplateGenerator.TemplateHashtagsKeepAllCustom | lib/viral-post-generator.ts:159 | with at most 3 custom tags, all of them appear, in order, after the fixed five |
| TemplateGenerator.ButtonText | lib/viral-post-generator.ts:163-166 | the label chosen by goal ("Shop B Now 🚀", "Join B Today ✨", "Discover B 💫", otherwise "Explore B 🌟"), and every label contains the business |
| TemplateGenerator.GenerateViralPost | lib/viral-post-generator.ts:125-180 | the goal's button label, which names the business; 3 distinct emojis from the tone's pool; a call to action from the goal's lines; word count = spaces + 1 (so at least 1); the platform echoed; at most 8 tags |
| TemplateGenerator.NormalizedTags | lib/viral-post-generator.ts:183 | one entry per tag, in order, each the tag normalised (`#` prepended only where missing) |
| TemplateGenerator.FormatPostForPlatform | lib/viral-post-generator.ts:182-192 | for every tag list, the export is the content, a blank line, a `---` line on LinkedIn only, then the normalised tags joined by single spaces |
| TemplateGenerator.FormatNoTags | lib/viral-post-generator.ts:182-192 | a post without tags exports as the content and a blank line, followed by `---` and a newline on LinkedIn |
| TemplateGenerator.FormatKeepsEveryTag | lib/viral-post-generator.ts:182-192 | the block after the prefix includes every normalised tag, including tags that contain spaces |
| TemplateGenerator.FormatTagStep | lib/viral-post-generator.ts:182-192 | the block is the first normalised tag, then a space and the block of the remaining tags when there are any |
| TemplateGenerator.FormatKeepsSpacedTag | lib/viral-post-generator.ts:182-192 | a lone tag holding a space, such as a reply line "#eco #green", is exported unchanged as one block |
| TemplateGenerator.FormatRecoversTags | lib/viral-post-generator.ts:182-192 | when there is at least one tag and no tag contains a space, splitting the block after the prefix on spaces gives back the normalised tags |
| TemplateGenerator.GenerateMultiplePosts | lib/viral-post-generator.ts:201-203 | exactly `count` posts, each a template post |
| TemplateGenerator.GenerateViralPostWithAI | lib/viral-post-generator.ts:101-122 | the route's post on success; the template post on a network error or a failure answer |
| TemplateGenerator.EmptyBusinessFallsBack | lib/viral-post-generator.ts:112-121 | an empty business is refused by the route, so the template post is used |
| TemplateGenerator.AiPostShape | lib/viral-post-generator.ts:101-122 | either path gives the request's platform, at most 8 tags and a word count of at least 1 |
| TemplateGenerator.GenerateMultiplePostsWithAI | lib/viral-post-generator.ts:195-198 | exactly `count` posts, each falling back on its own |
| TemplateGenerator.BatchShape | lib/viral-post-generator.ts:195-203 | both batches have exactly `count` posts, each with the request's platform and at most 8 tags |
| TemplateGenerator.FailingBackendGivesTemplateBatch | lib/viral-post-generator.ts:112-198 | when every call fails (no network, no key, or a failed or choice-less text-service reply for the body, the hashtags or the call to action), the backend batch equals the template batch, and every body is non-empty |
| PostPreview.PlatformLimits | components/post-preview.tsx:60-75 | the limit table, with 280/280 for any other platform; total ≥ preview > 0 |
| PostPreview.StatusText | components/post-preview.tsx:97-102 | "⚠ Long" exactly off LinkedIn beyond the preview limit; "✓ Professional Length" exactly on LinkedIn at 800 or more characters; "📝 Expand for LinkedIn" exactly on LinkedIn below 800 |
| PostPreview.StatusIconOf | components/post-preview.tsx:82-95 | the alert icon exactly with "⚠ Long", the info icon exactly with "📝 Expand for LinkedIn", the check icon exactly with a "✓" status text |
| PostPreview.Classify | components/post-preview.tsx:77-154 | within preview iff length ≤ preview; within total iff length ≤ total; the status texts by platform; warning iff not within preview and not LinkedIn; tip iff LinkedIn and length < 600 |
| PostPreview.LinkedInMiddleBand | components/post-preview.tsx:97-154 | LinkedIn lengths 600 to 799 get neither tip nor warning, yet the status says expand |
| PostPreview.WarningMatchesStatus | components/post-preview.tsx:97-140 | outside LinkedIn the warning shows exactly when the status is "⚠ Long" |
| PostPreview.HashtagBadges | components/post-preview.tsx:175-181 | one badge per tag, in order: the tag itself when it starts with `#`, otherwise `#` followed by the tag |
| PostPreview.HashtagBadgesIdempotent | components/post-preview.tsx:181 | badge normalisation is idempotent |
| PostPreview.CopyText | components/post-preview.tsx:19 | for every tag list, the copied text is the content, a blank line, then the raw tags joined by single spaces |
| PostPreview.CopyTextNoTags | components/post-preview.tsx:19 | a post without tags is copied as the content and a blank line |
| PostPreview.CopyTextKeepsEveryTag | components/post-preview.tsx:19 | the copied text after the blank line includes every raw tag, including tags that contain spaces |
| PostPreview.CopyTextRecoversTags | components/post-preview.tsx:19 | when there is at least one tag and no tag contains a space, splitting the text after the blank line on spaces gives back the raw tags |
| PostPreview.CopyTextMatchesExport | components/post-preview.tsx:19 | outside LinkedIn, with all tags carrying `#`, the copied text is the exported text |
| PostPreview.CopyTextDiffersOnBareTag | components/post-preview.tsx:19 | a tag without `#` is copied bare but exported with `#` |
| ChatGenerator.WhitespaceRun | components/viral-post-generator.tsx:241 | the `\s+` run after the keyword: all white space, maximal |
| ChatGenerator.WordRun | components/viral-post-generator.tsx:241 | the run of `[a-zA-Z0-9&]` characters: maximal |
| ChatGenerator.CaptureAt | components/viral-post-generator.tsx:241 | a capture is only made where the keyword occurs, and is a non-empty word or one white-space character |
| ChatGenerator.MatchFrom | components/viral-post-generator.tsx:253 | `match` finds the leftmost position where the pattern matches, or none |
| ChatGenerator.FirstCapture | components/viral-post-generator.tsx:253 | the leftmost match's capture is a word or one white-space character |
| ChatGenerator.AcceptedIsWord | components/viral-post-generator.tsx:254 | a capture passing the filter is a word longer than 2 and unchanged by `trim` |
| ChatGenerator.FirstAccepted | components/viral-post-generator.tsx:252-258 | the field read from the request by a list of patterns; what it yields is stated by the `FirstAcceptedSpec`, `FirstAcceptedEmptyIff` and `FirstAcceptedIsWord` rows |
| ChatGenerator.FirstAcceptedSpec | components/viral-post-generator.tsx:252-258 | the field is the trimmed capture of the first pattern, in list order, whose first match passes the filter |
| ChatGenerator.FirstAcceptedEmptyIff | components/viral-post-generator.tsx:239-258 | the field is `''` exactly when no pattern's first match passes |
| ChatGenerator.FirstAcceptedIsWord | components/viral-post-generator.tsx:252-258 | every extracted field is `''` or a word longer than 2 |
| ChatGenerator.ExtractField | components/viral-post-generator.tsx:252-258 | the loop with `break` computes the first accepted field |
| ChatGenerator.ForFillsBusinessAndAudience | components/viral-post-generator.tsx:239-300 | when `for`'s capture passes, business and audience are the same word |
| ChatGenerator.RejectedPatternSkipped | components/viral-post-generator.tsx:252-258 | a rejected first match moves on to the next pattern, not to the next match |
| ChatGenerator.OnlyTheFirstMatchCounts | components/viral-post-generator.tsx:239-258 | in "for the Acme for Bolt" the `for` pattern yields nothing, though its later match would pass |
| ChatGenerator.CaptureOfDelimitedWord | components/viral-post-generator.tsx:241 | the keyword, one white-space character and a word ended by white space, a comma, a full stop or the end: the capture is exactly that word |
| ChatGenerator.CaptureBeforeFullStop | components/viral-post-generator.tsx:241 | "for Acme." captures "Acme" |
| ChatGenerator.FirstRulePriority | components/viral-post-generator.tsx:303-332 | a keyword of a rule decides unless an earlier rule fires |
| ChatGenerator.FirstRuleNone | components/viral-post-generator.tsx:303-332 | with no keyword found, the default is chosen |
| ChatGenerator.FirstRuleDefaultIff | components/viral-post-generator.tsx:303-332 | when no rule yields the default, the default comes out exactly when no rule fires |
| ChatGenerator.ProfessionalKeywordsWin | components/viral-post-generator.tsx:304-305 | a professional keyword wins over every other tone keyword |
| ChatGenerator.BusinessMeansProfessional | components/viral-post-generator.tsx:304 | "business" or "linkedin" in the request makes the tone professional |
| ChatGenerator.PlayfulIffNoKeyword | components/viral-post-generator.tsx:303-318 | the tone is playful exactly when no tone keyword occurs |
| ChatGenerator.SalesKeywordsWin | components/viral-post-generator.tsx:322-323 | a sales keyword wins over every other goal keyword |
| ChatGenerator.EngagementIffNoKeyword | components/viral-post-generator.tsx:321-332 | the goal is engagement exactly when no goal keyword occurs |
| ChatGenerator.ClassifyTone | components/viral-post-generator.tsx:303-318 | the tone by the first firing keyword rule, playful by default; stated by the `ProfessionalKeywordsWin` and `PlayfulIffNoKeyword` rows |
| ChatGenerator.ClassifyGoal | components/viral-post-generator.tsx:321-332 | the goal by the first firing keyword rule, engagement by default; stated by the `SalesKeywordsWin` and `EngagementIffNoKeyword` rows |
| ChatGenerator.ToneRulesOrder | components/viral-post-generator.tsx:303-318 | the tone rules are tried in source order |
| ChatGenerator.GoalRulesOrder | components/viral-post-generator.tsx:321-332 | the goal rules are tried in source order |
| ChatGenerator.ChooseTone | components/viral-post-generator.tsx:303-318 | the if/else chain picks the tone of the first firing rule, or playful |
| ChatGenerator.ChooseGoal | components/viral-post-generator.tsx:321-332 | the if/else chain picks the goal of the first firing rule, or engagement |
| ChatGenerator.ExtractHashtags | components/viral-post-generator.tsx:335-336 | every extracted tag is a non-empty alphanumeric run |
| ChatGenerator.NoHashNoTags | components/viral-post-generator.tsx:335-336 | text without `#` yields no tags |
| ChatGenerator.ExtractHashtagsOne | components/viral-post-generator.tsx:335-336 | `#tag` followed by a non-alphanumeric character is read whole, before the tags of what follows |
| ChatGenerator.ExtractHashtagsSkipPlain | components/viral-post-generator.tsx:335-336 | text without `#` before a tag is skipped: the tags of `a + b` are those of `b` |
| ChatGenerator.ExtractHashtagsLoneHash | components/viral-post-generator.tsx:335-336 | a `#` not followed by a letter or digit starts no tag |
| ChatGenerator.ExtractHashtagsAfterText | components/viral-post-generator.tsx:335-336 | "Love it #eco" yields the single tag "eco" |
| ChatGenerator.TagStep | components/viral-post-generator.tsx:335-336 | at a `#` followed by a letter or digit, the whole alphanumeric run is taken and the scan continues after it |
| ChatGenerator.ExtractHashtagsRoundTrip | components/viral-post-generator.tsx:335-336 | `#t1 #t2 …` is read back as `t1, t2, …` in order |
| ChatGenerator.Description | components/viral-post-generator.tsx:281 | the whole input up to 50 characters; otherwise its first 100 characters (or all) followed by "..." |
| ChatGenerator.DescriptionMiddleBand | components/viral-post-generator.tsx:281 | inputs of 51 to 100 characters become input + "..." |
| ChatGenerator.PlaceholderNeverExtracted | components/viral-post-generator.tsx:339-343 | no extracted field equals "Your Business" or "Product/Service", so the fallback branch never runs |
| ChatGenerator.ParseUserInput | components/viral-post-generator.tsx:234-355 | business, product and audience are the first accepted captures; description, tone, goal and tags as above; the platform is echoed |
| ChatGenerator.ChatSession.SetInputValue | components/viral-post-generator.tsx:1021 | typing sets the text box and changes nothing else |
| ChatGenerator.ChatSession.SendMessage | components/viral-post-generator.tsx:137-151 | a blank message, or one sent while generating, changes nothing; otherwise the message is appended, becomes the pending request, the box is cleared and platform choice opens |
| ChatGenerator.ChatSession.SelectPlatform | components/viral-post-generator.tsx:153-179 | the pending request is parsed for the chosen platform, the reading is appended to the transcript, and the card for editing the reading is shown |
| ChatGenerator.ChatSession.ShowReading | components/viral-post-generator.tsx:154-179 | the platform is recorded, the choice closes, the reading is stored and appended, and the edit card opens; the text box, the generating flag and the pending request keep their values |
| PostForm.ApplyUpdate | Downloads/PromotionAI/components/viral-post-generator.tsx:32-37 | `{ ...prev, [field]: value }`; the `ApplyUpdateOnlyNamedField` row states its effect |
| PostForm.ApplyUpdateOnlyNamedField | Downloads/PromotionAI/components/viral-post-generator.tsx:32-37 | an update sets the named field and no other |
| PostForm.NewTag | Downloads/PromotionAI/components/viral-post-generator.tsx:41-43 | the trimmed input if it starts with `#`, otherwise `#` plus the trimmed input |
| PostForm.RemoveAt | Downloads/PromotionAI/components/viral-post-generator.tsx:56 | the index filter never lengthens the list and keeps only entries of the list |
| PostForm.RemoveAtSpec | Downloads/PromotionAI/components/viral-post-generator.tsx:53-57 | filtering by index deletes exactly that entry, keeping the order of the rest; an index out of range deletes nothing |
| PostForm.RemoveAtLength | Downloads/PromotionAI/components/viral-post-generator.tsx:53-57 | a removal shortens the list by one exactly when the index is in range |
| PostForm.ExportFileName | Downloads/PromotionAI/components/viral-post-generator.tsx:97 | `viral-posts-`, the slug and `.txt`, with no white space anywhere |
| PostForm.ExportFileNameTwoWords | Downloads/PromotionAI/components/viral-post-generator.tsx:97 | two words separated by any white-space run are joined by a single `-`, then lower-cased |
| PostForm.ExportFileNameOneWord | Downloads/PromotionAI/components/viral-post-generator.tsx:97 | a one-word business is only lower-cased |
| PostForm.FormState.HandleInputChange | Downloads/PromotionAI/components/viral-post-generator.tsx:32-37 | only the form record changes, by the update |
| PostForm.FormState.SetCustomHashtagInput | Downloads/PromotionAI/components/viral-post-generator.tsx:332 | typing in the hashtag box sets it and changes nothing else |
| PostForm.FormState.SetUseAI | Downloads/PromotionAI/components/viral-post-generator.tsx:178 | the mode switch sets the flag and changes nothing else |
| PostForm.FormState.AddCustomHashtag | Downloads/PromotionAI/components/viral-post-generator.tsx:39-51 | a blank box changes nothing; otherwise exactly one normalised tag is appended and the box is cleared |
| PostForm.FormState.RemoveHashtag | Downloads/PromotionAI/components/viral-post-generator.tsx:53-58 | the tag list becomes the index-filtered list and nothing else changes |
| PostForm.FormState.GeneratePosts | Downloads/PromotionAI/components/viral-post-generator.tsx:60-86 | an empty business, product or audience only raises the alert; otherwise the batch of three comes from the backend or the templates, as switched |
| PostForm.AddedTagsNormalised | Downloads/PromotionAI/components/viral-post-generator.tsx:41-47 | tags added through the form all start with `#` |
| PostForm.RemoveKeepsNormalised | Downloads/PromotionAI/components/viral-post-generator.tsx:53-57 | removal keeps a normalised list normalised |

## Left out

- **Network and HTTP.** The HTTP exchanges (`generateContent`'s request and status handling, the browser `fetch`) are inputs. The test routes and `app/test-api/page.tsx` are not part of this model.
- **Environment variables.** The API-key lookup is a boolean input, and the environment-test route is not modelled.
- **Concurrency.** `Promise.all` over the three backend calls and over a batch is treated as sequential, with results kept in order.
- **Randomness.** Random draws are parameters. Only ranges, membership and shape are stated, never distribution.
- **Prompt prose.** Only the selected limit, strategy, requirement line and request options are modelled, not the long prompt texts.
- **Non-string field values.** The route's request fields are modelled as strings or absent. Its `customHashtags` is absent, `null` or a list of strings. Other JSON values (numbers, a string spread as characters) are not modelled.
- **JavaScript prototype keys as platform names.** An identifier such as "constructor" finds an inherited property in the lookup tables. The model treats it like any other unknown identifier.
- **Lower-casing.** `toLowerCase` is modelled for ASCII letters only. A non-ASCII character whose lower case is ASCII, such as the Kelvin sign, is left unchanged. The keyword patterns' case-insensitive matching is ASCII-only in JavaScript as well.
- **String lengths.** Lengths, `substring(0, 100)` and the preview limits count code points, not UTF-16 code units.
- **React and browser effects.** JSX, styles, icons, scrolling, timestamps and message ids, `setTimeout`, the clipboard and the Blob download are not modelled, and neither is the `copied` flag.
- **Unmodelled handlers.** The chat's `handleGeneratePosts`, `clearChat` and `exportAllPosts` are not modelled. Neither are the form's `exportAllPosts` text and `copyAllPosts`. Only the export file name is modelled.
- **Confirmation message text.** The chat's confirmation message is modelled as the parsed record and the platform, not as its prose.
- PostForm.FormState.GeneratePosts: the `isGenerating` flag is set and then reset within one call, so it is not a field. The catch branch's alert is not modelled, because the batch functions cannot fail once every backend failure falls back to a template post.
- ChatGenerator.ParseUserInput: the fallback branch for the "Your Business" / "Product/Service" placeholders is kept as written. `PlaceholderNeverExtracted` shows that it cannot run.
- PostForm.ApplyUpdate: `handleInputChange` accepts any value for any field. The model gives each field a value of its own type.
