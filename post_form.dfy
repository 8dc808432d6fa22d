/** The form front end's state: the request being edited, its list of custom hashtags,
    the posts of the last generation, and the guard that refuses to generate from an
    incomplete form. */
module PostForm {
  import opened Text
  import opened Posts
  import opened TemplateGenerator

  /** One `handleInputChange(field, value)` call: which field, and its new value. */
  datatype FieldUpdate =
    | SetBusiness(business: string)
    | SetBusinessDescription(description: string)
    | SetProduct(product: string)
    | SetPlatform(platform: Platform)
    | SetAudience(audience: string)
    | SetTone(tone: Tone)
    | SetGoal(goal: Goal)
    | SetCustomHashtags(tags: seq<string>)

  /** `{ ...prev, [field]: value }`. */
  function ApplyUpdate(f: PostInput, u: FieldUpdate): PostInput {
    match u
    case SetBusiness(v) => f.(business := v)
    case SetBusinessDescription(v) => f.(businessDescription := v)
    case SetProduct(v) => f.(product := v)
    case SetPlatform(v) => f.(platform := v)
    case SetAudience(v) => f.(audience := v)
    case SetTone(v) => f.(tone := v)
    case SetGoal(v) => f.(goal := v)
    case SetCustomHashtags(v) => f.(customHashtags := v)
  }

  /** An update sets the named field and leaves every other field as it was. */
  lemma ApplyUpdateOnlyNamedField(f: PostInput, u: FieldUpdate)
    ensures var g := ApplyUpdate(f, u);
      && (if u.SetBusiness? then g.business == u.business else g.business == f.business)
      && (if u.SetBusinessDescription? then g.businessDescription == u.description
          else g.businessDescription == f.businessDescription)
      && (if u.SetProduct? then g.product == u.product else g.product == f.product)
      && (if u.SetPlatform? then g.platform == u.platform else g.platform == f.platform)
      && (if u.SetAudience? then g.audience == u.audience else g.audience == f.audience)
      && (if u.SetTone? then g.tone == u.tone else g.tone == f.tone)
      && (if u.SetGoal? then g.goal == u.goal else g.goal == f.goal)
      && (if u.SetCustomHashtags? then g.customHashtags == u.tags else g.customHashtags == f.customHashtags)
  {
  }

  /** The tag `addCustomHashtag` appends for the text in the hashtag box. */
  function NewTag(input: string): (r: string)
    ensures StartsWith(r, "#")
    ensures StartsWith(Trim(input), "#") ==> r == Trim(input)
    ensures !StartsWith(Trim(input), "#") ==> r == "#" + Trim(input)
  {
    NormalizeTag(Trim(input))
  }

  /** `prev.customHashtags.filter((_, i) => index !== i)`. */
  function RemoveAt(tags: seq<string>, index: int): (r: seq<string>)
    ensures |r| <= |tags|
    ensures forall k :: 0 <= k < |r| ==> r[k] in tags
    decreases |tags|
  {
    if tags == [] then []
    else (if index == 0 then [] else [tags[0]]) + RemoveAt(tags[1..], index - 1)
  }

  /** Filtering out index `i` deletes exactly that entry and keeps the others in order;
      an index outside the list deletes nothing. */
  lemma {:induction false} RemoveAtSpec(tags: seq<string>, index: int)
    ensures 0 <= index < |tags| ==> RemoveAt(tags, index) == tags[..index] + tags[index + 1..]
    ensures !(0 <= index < |tags|) ==> RemoveAt(tags, index) == tags
    decreases |tags|
  {
    if tags != [] {
      RemoveAtSpec(tags[1..], index - 1);
      assert RemoveAt(tags, index) == (if index == 0 then [] else [tags[0]]) + RemoveAt(tags[1..], index - 1);
      if index == 0 {
        assert tags[1..] == tags[..0] + tags[1..];
      } else if 0 < index < |tags| {
        assert tags[..index] == [tags[0]] + tags[1..][..index - 1];
        assert tags[index + 1..] == tags[1..][index..];
      } else {
        assert [tags[0]] + tags[1..] == tags;
      }
    }
  }

  /** A removal shortens the list by one exactly when the index is inside it. */
  lemma RemoveAtLength(tags: seq<string>, index: int)
    ensures |RemoveAt(tags, index)| == if 0 <= index < |tags| then |tags| - 1 else |tags|
  {
    RemoveAtSpec(tags, index);
  }

  const RequiredFieldsAlert := "Please fill in all required fields"

  /** The fields `generatePosts` insists on. */
  predicate ReadyToGenerate(f: PostInput) {
    f.business != "" && f.product != "" && f.audience != ""
  }

  /** The number of posts one press of the generate button asks for. */
  const BatchSize: nat := 3

  /** Lower-casing turns no character into white space. */
  lemma LowerKeepsNoWhitespace(s: string)
    requires NoWhitespace(s)
    ensures NoWhitespace(Lower(s))
  {
    forall i | 0 <= i < |s|
      ensures !IsWhitespace(Lower(s)[i])
    {
      assert Lower(s)[i] == LowerChar(s[i]);
    }
  }

  /** Joining strings without white space gives a string without white space. */
  lemma ConcatNoWhitespace(a: string, b: string)
    requires NoWhitespace(a) && NoWhitespace(b)
    ensures NoWhitespace(a + b)
  {
    forall i | 0 <= i < |a + b|
      ensures !IsWhitespace((a + b)[i])
    {
      if i >= |a| {
        assert (a + b)[i] == b[i - |a|];
      }
    }
  }

  const ExportPrefix := "viral-posts-"
  const ExportSuffix := ".txt"

  /** `"viral-posts-" + business.replace(/\s+/g, '-').toLowerCase() + ".txt"`. */
  function ExportFileName(business: string): (r: string)
    ensures StartsWith(r, ExportPrefix) && EndsWith(r, ExportSuffix)
    ensures NoWhitespace(r)
  {
    var slug := Lower(ReplaceWhitespaceRuns(business, "-"));
    ReplaceWhitespaceRunsFree(business, "-");
    LowerKeepsNoWhitespace(ReplaceWhitespaceRuns(business, "-"));
    ExportAffixesPlain();
    ConcatNoWhitespace(ExportPrefix, slug);
    ConcatNoWhitespace(ExportPrefix + slug, ExportSuffix);
    Framed(ExportPrefix, slug, ExportSuffix);
    ExportPrefix + slug + ExportSuffix
  }

  lemma ExportAffixesPlain()
    ensures NoWhitespace(ExportPrefix) && NoWhitespace(ExportSuffix)
  {
  }

  /** Two words separated by a white-space run are joined by one `-`. */
  lemma ExportFileNameTwoWords(a: string, w: string, b: string)
    requires NoWhitespace(a) && NoWhitespace(b)
    requires |w| >= 1 && forall k :: 0 <= k < |w| ==> IsWhitespace(w[k])
    ensures ExportFileName(a + w + b) == "viral-posts-" + Lower(a + "-" + b) + ".txt"
  {
    ReplaceWhitespaceRunsOfRun(a, w, b, "-");
  }

  /** A business name of one word is only lower-cased in the file name. */
  lemma ExportFileNameOneWord(business: string)
    requires NoWhitespace(business)
    ensures ExportFileName(business) == "viral-posts-" + Lower(business) + ".txt"
  {
    ReplaceWhitespaceRunsIdentity(business, "-");
  }

  /** The form's state. */
  class FormState {
    var formData: PostInput
    var customHashtagInput: string
    var generatedPosts: seq<GeneratedPost>
    var useAI: bool
    /** The texts of the alerts raised so far. */
    var alerts: seq<string>

    /** The empty form: Instagram, playful, aiming for engagement, AI generation on. */
    constructor()
      ensures formData == PostInput("", "", "", Instagram, "", Playful, Engagement, [])
      ensures customHashtagInput == "" && generatedPosts == [] && useAI && alerts == []
    {
      formData := PostInput("", "", "", Instagram, "", Playful, Engagement, []);
      customHashtagInput := "";
      generatedPosts := [];
      useAI := true;
      alerts := [];
    }

    /** `handleInputChange`. */
    method HandleInputChange(u: FieldUpdate)
      modifies this
      ensures formData == ApplyUpdate(old(formData), u)
      ensures customHashtagInput == old(customHashtagInput) && generatedPosts == old(generatedPosts)
      ensures useAI == old(useAI) && alerts == old(alerts)
    {
      formData := ApplyUpdate(formData, u);
    }

    /** Typing in the hashtag box. */
    method SetCustomHashtagInput(value: string)
      modifies this
      ensures customHashtagInput == value
      ensures formData == old(formData) && generatedPosts == old(generatedPosts)
      ensures useAI == old(useAI) && alerts == old(alerts)
    {
      customHashtagInput := value;
    }

    /** Switching between backend and template generation. */
    method SetUseAI(value: bool)
      modifies this
      ensures useAI == value
      ensures formData == old(formData) && customHashtagInput == old(customHashtagInput)
      ensures generatedPosts == old(generatedPosts) && alerts == old(alerts)
    {
      useAI := value;
    }

    /** `addCustomHashtag`: a blank box changes nothing; otherwise exactly one tag, the
        trimmed text with a `#` in front unless it has one, joins the end of the list and
        the box is cleared. */
    method AddCustomHashtag()
      modifies this
      ensures Trim(old(customHashtagInput)) == "" ==>
        formData == old(formData) && customHashtagInput == old(customHashtagInput)
      ensures Trim(old(customHashtagInput)) != "" ==>
        && formData == old(formData).(customHashtags := old(formData.customHashtags) + [NewTag(old(customHashtagInput))])
        && customHashtagInput == ""
      ensures generatedPosts == old(generatedPosts) && useAI == old(useAI) && alerts == old(alerts)
    {
      var trimmed := Trim(customHashtagInput);
      if trimmed != "" {
        var newTag := if StartsWith(trimmed, "#") then trimmed else "#" + trimmed;
        formData := formData.(customHashtags := formData.customHashtags + [newTag]);
        customHashtagInput := "";
      }
    }

    /** `removeHashtag(index)`. */
    method RemoveHashtag(index: int)
      modifies this
      ensures formData == old(formData).(customHashtags := RemoveAt(old(formData.customHashtags), index))
      ensures customHashtagInput == old(customHashtagInput) && generatedPosts == old(generatedPosts)
      ensures useAI == old(useAI) && alerts == old(alerts)
    {
      formData := formData.(customHashtags := RemoveAt(formData.customHashtags, index));
    }

    /** `generatePosts`: an incomplete form only raises the alert; otherwise three posts
        are made, from the backend (each falling back on its own) or from the templates.
        `fetched` and `choices` stand for the network answers and the random draws. */
    method GeneratePosts(fetched: seq<FetchResult>, choices: seq<Choices>)
      requires |fetched| == BatchSize && |choices| == BatchSize
      requires forall i :: 0 <= i < BatchSize ==> ValidChoices(formData, choices[i])
      modifies this
      ensures !ReadyToGenerate(old(formData)) ==>
        generatedPosts == old(generatedPosts) && alerts == old(alerts) + [RequiredFieldsAlert]
      ensures ReadyToGenerate(old(formData)) && old(useAI) ==>
        generatedPosts == GenerateMultiplePostsWithAI(old(formData), BatchSize, fetched, choices)
        && alerts == old(alerts)
      ensures ReadyToGenerate(old(formData)) && !old(useAI) ==>
        generatedPosts == GenerateMultiplePosts(old(formData), BatchSize, choices) && alerts == old(alerts)
      ensures formData == old(formData) && customHashtagInput == old(customHashtagInput) && useAI == old(useAI)
    {
      if formData.business == "" || formData.product == "" || formData.audience == "" {
        alerts := alerts + [RequiredFieldsAlert];
        return;
      }
      var posts;
      if useAI {
        posts := GenerateMultiplePostsWithAI(formData, BatchSize, fetched, choices);
      } else {
        posts := GenerateMultiplePosts(formData, BatchSize, choices);
      }
      generatedPosts := posts;
    }

  }

  /** Every tag the form adds starts with `#`, so the list stays normalised as it grows. */
  lemma AddedTagsNormalised(tags: seq<string>, input: string)
    requires forall i :: 0 <= i < |tags| ==> StartsWith(tags[i], "#")
    ensures var grown := tags + [NewTag(input)];
      forall i :: 0 <= i < |grown| ==> StartsWith(grown[i], "#")
  {
  }

  /** Removal keeps a normalised list normalised. */
  lemma RemoveKeepsNormalised(tags: seq<string>, index: int)
    requires forall i :: 0 <= i < |tags| ==> StartsWith(tags[i], "#")
    ensures var r := RemoveAt(tags, index);
      forall i :: 0 <= i < |r| ==> StartsWith(r[i], "#")
  {
    RemoveAtSpec(tags, index);
    var r := RemoveAt(tags, index);
    if 0 <= index < |tags| {
      forall i | 0 <= i < |r|
        ensures StartsWith(r[i], "#")
      {
        if i < index {
          assert r[i] == tags[i];
        } else {
          assert r[i] == tags[i + 1];
        }
      }
    }
  }
}
