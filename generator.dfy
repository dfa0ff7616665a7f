/** The template generators of the content service, used while the language
    model is switched off: keyword derivation from the business profile,
    the fixed content ideas, and the per-platform post templates. All three
    are deterministic functions of their inputs. */
module Generator {
  import opened Text
  import opened Lists
  import opened Api

  // ---------------------------------------------------------------------
  // Keywords

  /** The eight candidate keywords, lower-cased, in their fixed order. */
  function KeywordCandidates(b: BusinessData): seq<string>
  {
    [ Lower(b.businessType),
      Lower(b.ukCity) + " " + Lower(b.businessType),
      Lower(b.industry),
      "local business",
      "uk business",
      Lower(b.businessType) + " near me",
      Lower(b.ukCity),
      Lower(b.industry) + " uk" ]
  }

  /** `s.filter(k => k.trim().length > 0)`. */
  function NonBlank(s: seq<string>): seq<string>
  {
    if s == [] then [] else (if Trim(s[0]) != "" then [s[0]] else []) + NonBlank(s[1..])
  }

  lemma {:induction false} NonBlankMembers(s: seq<string>)
    ensures forall k :: k in NonBlank(s) <==> k in s && Trim(k) != ""
  {
    if s != [] {
      NonBlankMembers(s[1..]);
      assert s == [s[0]] + s[1..];
    }
  }

  /** De-duplicating the non-blank candidates keeps the first occurrence of
      each, without repeats, and no more values than there are candidates. */
  lemma {:induction false} DistinctNonBlankSpec(cs: seq<string>)
    ensures Distinct(NonBlank(cs)) == FirstOccurrences(NonBlank(cs))
    ensures NoDups(Distinct(NonBlank(cs)))
    ensures forall k :: k in Distinct(NonBlank(cs)) <==> k in cs && Trim(k) != ""
    ensures |Distinct(NonBlank(cs))| <= |cs|
  {
    DistinctSpec(NonBlank(cs));
    NonBlankMembers(cs);
    NoDupsLength(Distinct(NonBlank(cs)), cs);
  }

  /** `generateKeywords`: the non-blank candidates without repeats, each
      kept at its first occurrence. The two fixed candidates are always
      present, so the list is never empty. */
  function GenerateKeywords(b: BusinessData): (r: seq<string>)
    ensures r == FirstOccurrences(NonBlank(KeywordCandidates(b)))
    ensures NoDups(r)
    ensures forall k :: k in r <==> k in KeywordCandidates(b) && Trim(k) != ""
    ensures "local business" in r && "uk business" in r
    ensures 2 <= |r| <= 8
  {
    var candidates := KeywordCandidates(b);
    DistinctNonBlankSpec(candidates);
    FixedKeywordsKept(candidates);
    Distinct(NonBlank(candidates))
  }

  /** The two fixed candidates are non-blank and differ, so they survive the
      filter and count twice towards the length. */
  lemma FixedKeywordsKept(cs: seq<string>)
    requires |cs| == 8 && cs[3] == "local business" && cs[4] == "uk business"
    ensures "local business" in Distinct(NonBlank(cs)) && "uk business" in Distinct(NonBlank(cs))
    ensures |Distinct(NonBlank(cs))| >= 2
  {
    DistinctNonBlankSpec(cs);
    TrimNonEmpty("local business");
    TrimNonEmpty("uk business");
    assert "local business" in cs && "uk business" in cs;
    var r := Distinct(NonBlank(cs));
    var i :| 0 <= i < |r| && r[i] == "local business";
    var j :| 0 <= j < |r| && r[j] == "uk business";
    assert "local business"[0] != "uk business"[0];
    assert i != j;
  }

  // ---------------------------------------------------------------------
  // Post ideas

  function BaseIdeas(b: BusinessData): seq<PostIdea>
  {
    [ PostIdea("idea_1",
        "Highlight " + b.businessName + "'s unique " + b.businessType + " offerings in " + b.ukCity,
        "Local Business Focus", 0.8,
        "Showcasing local business strengths appeals to community-focused customers"),
      PostIdea("idea_2",
        "Share customer testimonials and success stories from " + b.targetAudience,
        "Customer Engagement", 0.7,
        "Social proof helps build trust with potential customers"),
      PostIdea("idea_3",
        "Showcase behind-the-scenes content of " + b.servicesOffered,
        "Authenticity Trend", 0.75,
        "Transparency in business operations builds customer connection") ]
  }

  function SearchIdea(b: BusinessData): PostIdea
  {
    PostIdea("idea_4",
      "Create content around trending searches related to " + b.businessType,
      "Google Trends", 0.6,
      "Leveraging search trends can increase visibility")
  }

  function NewsIdea(b: BusinessData): PostIdea
  {
    PostIdea("idea_5",
      "Share insights on how current UK news affects " + b.industry,
      "BBC News", 0.65,
      "Connecting business to current events shows industry awareness")
  }

  predicate HasIdea(ideas: seq<PostIdea>, id: string)
  {
    exists i :: 0 <= i < |ideas| && ideas[i].id == id
  }

  /** The ids of the ideas, in order. */
  function IdsOf(ideas: seq<PostIdea>): (ids: seq<string>)
    ensures |ids| == |ideas|
    ensures forall i :: 0 <= i < |ideas| ==> ids[i] == ideas[i].id
  {
    seq(|ideas|, i requires 0 <= i < |ideas| => ideas[i].id)
  }

  /** The id list of the generated ideas: the three fixed ids, then
      `idea_4` and `idea_5` when their sources have data. Its entries differ
      in their last character, so they are distinct. */
  lemma IdeaIdFacts(ids: seq<string>, search: bool, news: bool)
    requires ids == ["idea_1", "idea_2", "idea_3"] + (if search then ["idea_4"] else [])
                    + (if news then ["idea_5"] else [])
    ensures "idea_4" in ids <==> search
    ensures "idea_5" in ids <==> news
    ensures forall i, j :: 0 <= i < j < |ids| ==> ids[i] != ids[j]
  {
    var last := ['1', '2', '3'] + (if search then ['4'] else []) + (if news then ['5'] else []);
    assert |last| == |ids|;
    assert forall i :: 0 <= i < |ids| ==> |ids[i]| == 6 && ids[i][5] == last[i];
    assert forall i, j :: 0 <= i < j < |last| ==> last[i] != last[j];
    assert "idea_4"[5] == '4' && "idea_5"[5] == '5';
    assert "idea_4" in ids ==> '4' in last;
    assert "idea_5" in ids ==> '5' in last;
  }

  /** The idea list for the given presence of search and news data. */
  function IdeaList(b: BusinessData, search: bool, news: bool): seq<PostIdea>
  {
    BaseIdeas(b) + (if search then [SearchIdea(b)] else []) + (if news then [NewsIdea(b)] else [])
  }

  lemma IdeaListFacts(b: BusinessData, search: bool, news: bool)
    ensures var r := IdeaList(b, search, news);
      && 3 <= |r| <= 5
      && r[0].id == "idea_1" && r[1].id == "idea_2" && r[2].id == "idea_3"
      && (HasIdea(r, "idea_4") <==> search)
      && (HasIdea(r, "idea_5") <==> news)
      && (forall i, j :: 0 <= i < j < |r| ==> r[i].id != r[j].id)
      && (forall i :: 0 <= i < |r| ==> 0.6 <= r[i].relevanceScore <= 0.8)
  {
    var r := IdeaList(b, search, news);
    var ids := IdsOf(r);
    var expected := ["idea_1", "idea_2", "idea_3"] + (if search then ["idea_4"] else [])
                    + (if news then ["idea_5"] else []);
    assert |ids| == |expected|;
    assert forall i :: 0 <= i < |ids| ==> ids[i] == expected[i];
    assert ids == expected;
    IdeaIdFacts(ids, search, news);
    assert HasIdea(r, "idea_4") <==> "idea_4" in ids;
    assert HasIdea(r, "idea_5") <==> "idea_5" in ids;
  }

  /** `generatePostIdeas`: three fixed ideas, then one for search trends if
      there are any and one for news articles if there are any. */
  function GeneratePostIdeas(b: BusinessData, trends: TrendBundle): (r: seq<PostIdea>)
    ensures 3 <= |r| <= 5
    ensures r[0].id == "idea_1" && r[1].id == "idea_2" && r[2].id == "idea_3"
    ensures HasIdea(r, "idea_4") <==> |trends.googleTrends| > 0
    ensures HasIdea(r, "idea_5") <==> |trends.bbcArticles| > 0
    ensures forall i, j :: 0 <= i < j < |r| ==> r[i].id != r[j].id
    ensures forall i :: 0 <= i < |r| ==> 0.6 <= r[i].relevanceScore <= 0.8
  {
    var search, news := |trends.googleTrends| > 0, |trends.bbcArticles| > 0;
    IdeaListFacts(b, search, news);
    IdeaList(b, search, news)
  }

  /** Only whether the search and news lists are empty matters: the X.com
      and forum lists never change the ideas. */
  lemma PostIdeasIgnoreOtherSources(b: BusinessData, t1: TrendBundle, t2: TrendBundle)
    requires (|t1.googleTrends| > 0) == (|t2.googleTrends| > 0)
    requires (|t1.bbcArticles| > 0) == (|t2.bbcArticles| > 0)
    ensures GeneratePostIdeas(b, t1) == GeneratePostIdeas(b, t2)
  {
  }

  // ---------------------------------------------------------------------
  // Platform templates

  /** The twitter template after the concept, up to the city hashtag. */
  function TwitterBody(b: BusinessData): string
  {
    "\n\nVisit " + b.businessName + " in " + b.ukCity + " for quality " + b.businessType
    + " services!\n\n#" + b.ukCity
  }

  /** The instagram template after its opening line, up to the city hashtag. */
  function InstagramBody(b: BusinessData): string
  {
    "\n\n\U{1F4CD} Located in " + b.ukCity
    + "\n\U{1F3E2} Specializing in " + b.servicesOffered
    + "\n\U{1F465} Perfect for " + b.targetAudience
    + "\n\nCome and experience what makes " + b.businessName + " special!\n\n#" + b.ukCity
  }

  /** The facebook template after the concept, up to the city hashtag. */
  function FacebookBody(b: BusinessData): string
  {
    "\n\nAt " + b.businessName + ", we're proud to serve the " + b.ukCity + " community with our "
    + b.servicesOffered + ". Our focus on " + b.targetAudience + " means we understand what you need."
    + "\n\nWhy choose us?\n\U{2713} Local " + b.ukCity + " business\n\U{2713} Experienced in "
    + b.industry + "\n\U{2713} Committed to quality service\n\nVisit us today and see the difference!"
    + " Contact us for more information.\n\n#" + b.ukCity + "Business"
  }

  /** The text used for any platform without a template of its own. */
  function FallbackContent(b: BusinessData, idea: PostIdea, platform: string): string
  {
    ("Template content for " + platform + ": ") + idea.concept + (" - " + b.businessName + " in " + b.ukCity)
  }

  /** The twitter template: opens with the concept, closes with the
      hashtags, the business type tagged without its first space. */
  function TwitterContent(b: BusinessData, idea: PostIdea): (r: string)
    ensures Contains(r, idea.concept)
    ensures StartsWith(r, "\U{1F3AF} " + idea.concept)
    ensures EndsWith(r, " #" + RemoveFirstSpace(b.businessType) + " #LocalBusiness #UK")
  {
    var head := "\U{1F3AF} " + idea.concept;
    var tags := " #" + RemoveFirstSpace(b.businessType) + " #LocalBusiness #UK";
    Framed(head, TwitterBody(b), tags);
    ContainsMiddle("\U{1F3AF} ", idea.concept, "");
    assert "\U{1F3AF} " + idea.concept + "" == head;
    ContainsExtended(head, TwitterBody(b), tags, idea.concept);
    head + TwitterBody(b) + tags
  }

  /** The instagram template: the concept between two sparkles, then the
      hashtags, the business type tagged without its first space. */
  function InstagramContent(b: BusinessData, idea: PostIdea): (r: string)
    ensures Contains(r, idea.concept)
    ensures StartsWith(r, "\U{2728} " + idea.concept + " \U{2728}")
    ensures EndsWith(r, " #" + RemoveFirstSpace(b.businessType) + " #LocalBusiness #UK #Quality #Service")
  {
    var head := "\U{2728} " + idea.concept + " \U{2728}";
    var tags := " #" + RemoveFirstSpace(b.businessType) + " #LocalBusiness #UK #Quality #Service";
    Framed(head, InstagramBody(b), tags);
    ContainsMiddle("\U{2728} ", idea.concept, " \U{2728}");
    ContainsExtended(head, InstagramBody(b), tags, idea.concept);
    head + InstagramBody(b) + tags
  }

  /** The facebook template: opens with the concept itself and tags the
      business type unchanged. */
  function FacebookContent(b: BusinessData, idea: PostIdea): (r: string)
    ensures Contains(r, idea.concept)
    ensures StartsWith(r, idea.concept)
    ensures EndsWith(r, " #" + b.businessType + " #LocalSupport")
  {
    var tags := " #" + b.businessType + " #LocalSupport";
    Framed(idea.concept, FacebookBody(b), tags);
    ContainsMiddle("", idea.concept, "");
    assert "" + idea.concept + "" == idea.concept;
    ContainsExtended(idea.concept, FacebookBody(b), tags, idea.concept);
    idea.concept + FacebookBody(b) + tags
  }

  /** `generatePlatformContent`: the twitter, instagram or facebook
      template, else the generic text. Every result is non-empty and quotes
      the idea's concept. */
  function GeneratePlatformContent(b: BusinessData, idea: PostIdea, platform: string): (r: string)
    ensures |r| > 0
    ensures Contains(r, idea.concept)
    ensures platform == "twitter" ==> r == TwitterContent(b, idea)
    ensures platform == "instagram" ==> r == InstagramContent(b, idea)
    ensures platform == "facebook" ==> r == FacebookContent(b, idea)
    ensures platform != "twitter" && platform != "instagram" && platform != "facebook"
            ==> r == FallbackContent(b, idea, platform)
  {
    if platform == "twitter" then TwitterContent(b, idea)
    else if platform == "instagram" then InstagramContent(b, idea)
    else if platform == "facebook" then FacebookContent(b, idea)
    else
      ContainsMiddle("Template content for " + platform + ": ", idea.concept,
                     " - " + b.businessName + " in " + b.ukCity);
      FallbackContent(b, idea, platform)
  }

  /** A text built as `head + body + tags` starts with `head` and ends with
      `tags`. */
  lemma Framed(head: string, body: string, tags: string)
    ensures StartsWith(head + body + tags, head)
    ensures EndsWith(head + body + tags, tags)
  {
    assert (head + body + tags)[..|head|] == head;
    EndsWithAppend(head + body, tags);
  }

  /** Text appended after an occurrence keeps it. */
  lemma ContainsExtended(head: string, body: string, tags: string, pat: string)
    requires Contains(head, pat)
    ensures Contains(head + body + tags, pat)
  {
    var i :| 0 <= i <= |head| && StartsWith(head[i..], pat);
    var t := head + body + tags;
    assert t[i..][..|pat|] == head[i..][..|pat|];
    assert StartsWith(t[i..], pat);
  }

  /** With its first space at index `i`, the business type is tagged in the
      twitter and instagram texts with exactly that space cut out, and in
      the facebook text unchanged. */
  lemma TypeHashtags(b: BusinessData, idea: PostIdea, i: nat)
    requires i < |b.businessType| && b.businessType[i] == ' ' && ' ' !in b.businessType[..i]
    ensures var tag := b.businessType[..i] + b.businessType[i + 1..];
            && EndsWith(GeneratePlatformContent(b, idea, "twitter"), " #" + tag + " #LocalBusiness #UK")
            && EndsWith(GeneratePlatformContent(b, idea, "instagram"),
                        " #" + tag + " #LocalBusiness #UK #Quality #Service")
            && EndsWith(GeneratePlatformContent(b, idea, "facebook"), " #" + b.businessType + " #LocalSupport")
  {
    RemoveFirstSpaceAt(b.businessType, i);
  }
}
