/** The trend service: four source adapters that read and write the shared
    TTL cache, bound and filter what their upstream returns, and fall back
    to fixed lists on failure; and the aggregation that settles all four and
    attaches the generated ideas.

    Each upstream request is an abstract `Response` input and every clock
    reading is an explicit time in milliseconds. An adapter reads the cache
    at its start time and, when it stores a result, stamps it with its
    finish time. */
module Trends {
  import opened Wrappers
  import opened Text
  import opened Lists
  import opened Api
  import opened TtlCache
  import Generator

  const GooglePrefix: string := "google_trends_"
  const RedditPrefix: string := "reddit_uk_"
  const XcomKey: string := "xcom_trends_uk"
  const BbcKey: string := "bbc_business_news"

  const GoogleSource: string := "Google Trends UK"
  const XcomSource: string := "X.com UK Trends"
  const RedditSource: string := "Reddit UK Communities"
  const BbcSource: string := "BBC Business News"

  /** Cache lifetimes in minutes: two hours, and four for news. */
  const SearchTtlMinutes: int := 120
  const TopicTtlMinutes: int := 120
  const ForumTtlMinutes: int := 120
  const NewsTtlMinutes: int := 240

  const MaxQueriedKeywords: nat := 3
  const MaxSuggestions: nat := 5
  const MaxTopics: nat := 10
  const MaxPostsPerSubreddit: nat := 2
  const UkSubreddits: seq<string> := ["unitedkingdom", "AskUK", "britishproblems", "ukbusiness", "london"]
  const MaxSubreddits: nat := 3

  const AnalyzeFailure: string := "Failed to analyze trends. Please try again."

  // ---------------------------------------------------------------------
  // Cache keys

  /** The search adapter's key: its prefix, then the keywords joined by `_`. */
  function GoogleKey(keywords: seq<string>): (r: string)
    ensures StartsWith(r, GooglePrefix) && r[|GooglePrefix|..] == Join(keywords, "_")
  {
    StartsWithAppend(GooglePrefix, Join(keywords, "_"));
    assert (GooglePrefix + Join(keywords, "_"))[|GooglePrefix|..] == Join(keywords, "_");
    GooglePrefix + Join(keywords, "_")
  }

  /** The forum adapter's key: its prefix, then the keywords joined by `_`. */
  function RedditKey(keywords: seq<string>): (r: string)
    ensures StartsWith(r, RedditPrefix) && r[|RedditPrefix|..] == Join(keywords, "_")
  {
    StartsWithAppend(RedditPrefix, Join(keywords, "_"));
    assert (RedditPrefix + Join(keywords, "_"))[|RedditPrefix|..] == Join(keywords, "_");
    RedditPrefix + Join(keywords, "_")
  }

  /** The four adapters never share a key: the two keyword-scoped keys start
      with different letters, and neither can equal a fixed key. */
  lemma KeysNeverCollide(a: seq<string>, b: seq<string>)
    ensures GoogleKey(a) != RedditKey(b)
    ensures GoogleKey(a) != XcomKey && GoogleKey(a) != BbcKey
    ensures RedditKey(b) != XcomKey && RedditKey(b) != BbcKey
    ensures XcomKey != BbcKey
  {
    assert GoogleKey(a)[0] == 'g' && RedditKey(b)[0] == 'r';
    assert XcomKey[0] == 'x' && BbcKey[0] == 'b';
  }

  /** The keyword part keeps the order of the keywords: some reorderings of
      the same keywords give another key. */
  lemma KeysAreOrderSensitive()
    ensures GoogleKey(["cafe", "bristol"]) != GoogleKey(["bristol", "cafe"])
    ensures RedditKey(["cafe", "bristol"]) != RedditKey(["bristol", "cafe"])
  {
    assert Join(["cafe", "bristol"], "_") == "cafe" + "_" + "bristol";
    assert Join(["bristol", "cafe"], "_") == "bristol" + "_" + "cafe";
    assert GoogleKey(["cafe", "bristol"])[|GooglePrefix|] == 'c';
    assert GoogleKey(["bristol", "cafe"])[|GooglePrefix|] == 'b';
    assert RedditKey(["cafe", "bristol"])[|RedditPrefix|] == 'c';
    assert RedditKey(["bristol", "cafe"])[|RedditPrefix|] == 'b';
  }

  /** Joining with `_` loses the keyword boundaries: a keyword containing
      `_` yields the same key as the two keywords around it. */
  lemma KeysMayCoincide()
    ensures GoogleKey(["a_b"]) == GoogleKey(["a", "b"])
    ensures RedditKey(["a_b"]) == RedditKey(["a", "b"])
  {
    assert Join(["a", "b"], "_") == "a" + "_" + "b" == "a_b";
  }

  // ---------------------------------------------------------------------
  // What each key holds

  type Entries = map<string, Entry<seq<TrendRecord>>>

  predicate SearchShaped(d: seq<TrendRecord>)
  {
    |d| <= MaxQueriedKeywords
    && forall x :: x in d ==> x.SearchTrend? && |x.suggestions| <= MaxSuggestions && x.source == GoogleSource
  }

  predicate TopicShaped(d: seq<TrendRecord>)
  {
    |d| <= MaxTopics && forall x :: x in d ==> x.TopicTrend? && x.source == XcomSource
  }

  predicate ForumShaped(d: seq<TrendRecord>)
  {
    |d| <= MaxPostsPerSubreddit * MaxSubreddits && forall x :: x in d ==> x.Discussion? && x.source == RedditSource
  }

  predicate NewsShaped(d: seq<TrendRecord>)
  {
    forall x :: x in d ==> x.Article? && x.source == BbcSource
  }

  /** The shape the adapter owning `key` gives the data it stores. */
  predicate ShapedFor(key: string, d: seq<TrendRecord>)
  {
    if StartsWith(key, GooglePrefix) then SearchShaped(d)
    else if StartsWith(key, RedditPrefix) then ForumShaped(d)
    else if key == XcomKey then TopicShaped(d)
    else if key == BbcKey then NewsShaped(d)
    else true
  }

  /** The cache invariant kept by the adapters, the only writers: every
      entry holds data of its adapter's shape. */
  predicate WellShaped(entries: Entries)
  {
    forall k :: k in entries ==> ShapedFor(k, entries[k].data)
  }

  /** Strings that differ in their first character do not start alike. */
  lemma DiffersAtStart(s: string, p: string)
    requires s != [] && p != [] && s[0] != p[0]
    ensures !StartsWith(s, p)
  {
  }

  /** Each adapter's key selects that adapter's shape. */
  lemma KeyShapes(keywords: seq<string>, d: seq<TrendRecord>)
    ensures ShapedFor(GoogleKey(keywords), d) == SearchShaped(d)
    ensures ShapedFor(RedditKey(keywords), d) == ForumShaped(d)
    ensures ShapedFor(XcomKey, d) == TopicShaped(d)
    ensures ShapedFor(BbcKey, d) == NewsShaped(d)
  {
    assert RedditKey(keywords)[0] == 'r';
    DiffersAtStart(RedditKey(keywords), GooglePrefix);
    DiffersAtStart(XcomKey, GooglePrefix);
    DiffersAtStart(XcomKey, RedditPrefix);
    DiffersAtStart(BbcKey, GooglePrefix);
    DiffersAtStart(BbcKey, RedditPrefix);
  }

  /** Storing data of the key's shape keeps the invariant. */
  lemma StoreKeepsShape(entries: Entries, key: string, d: seq<TrendRecord>, at: int, ttl: int)
    requires WellShaped(entries) && ShapedFor(key, d)
    ensures WellShaped(entries[key := Written(d, at, ttl)])
  {
  }

  /** A hit returns data of the key's shape. */
  lemma HitHasShape(entries: Entries, key: string, now: int)
    requires WellShaped(entries) && Lookup(entries, key, now).Some?
    ensures ShapedFor(key, Lookup(entries, key, now).value)
  {
  }

  /** What one adapter call returns, and for how many minutes it stores the
      result under its key (`None`: the result is not stored). */
  datatype Run = Run(records: seq<TrendRecord>, storeMinutes: Option<int>)

  /** The cache after an adapter call that used `key` and finished at `at`. */
  function Commit(entries: Entries, key: string, run: Run, at: int): Entries
  {
    if run.storeMinutes.Some? then entries[key := Written(run.records, at, run.storeMinutes.value)] else entries
  }

  /** A call that stores nothing, or stores under another key, leaves every
      read of `other` as it was. */
  lemma CommitOtherKey(entries: Entries, key: string, run: Run, at: int, other: string, now: int)
    requires other != key
    ensures Lookup(Commit(entries, key, run, at), other, now) == Lookup(entries, other, now)
  {
  }

  // ---------------------------------------------------------------------
  // Search suggestions (the Google adapter)

  /** The search trends gathered from the per-keyword suggestion responses:
      one record per successful response, in keyword order, with at most
      five suggestions each. */
  function SearchTrends(keywords: seq<string>, responses: seq<Response<seq<string>>>): (r: seq<TrendRecord>)
    requires |responses| == |keywords|
    ensures |r| <= |keywords|
    ensures forall x :: x in r ==> x.SearchTrend? && |x.suggestions| <= MaxSuggestions
                                   && x.keyword in keywords && x.source == GoogleSource
  {
    if keywords == [] then []
    else
      var n := |keywords| - 1;
      var init := SearchTrends(keywords[..n], responses[..n]);
      assert forall k :: k in keywords[..n] ==> k in keywords;
      match responses[n]
      case Reply(suggestions) => init + [SearchTrend(keywords[n], Take(suggestions, MaxSuggestions), GoogleSource)]
      case Fail => init
  }

  /** When every request succeeds there is one record per keyword, for the
      keywords in their order; when all fail there are none. */
  lemma {:induction false} SearchTrendsAllOrNothing(keywords: seq<string>, responses: seq<Response<seq<string>>>)
    requires |responses| == |keywords|
    ensures (forall i :: 0 <= i < |responses| ==> responses[i].Reply?) ==>
              |SearchTrends(keywords, responses)| == |keywords|
              && forall i :: 0 <= i < |keywords| ==> SearchTrends(keywords, responses)[i].keyword == keywords[i]
    ensures (forall i :: 0 <= i < |responses| ==> responses[i].Fail?) ==> SearchTrends(keywords, responses) == []
  {
    if keywords != [] {
      var n := |keywords| - 1;
      SearchTrendsAllOrNothing(keywords[..n], responses[..n]);
    }
  }

  /** The number of successful responses in `rs`. */
  function Replies(rs: seq<Response<seq<string>>>): nat
  {
    if rs == [] then 0 else Replies(rs[..|rs| - 1]) + if rs[|rs| - 1].Reply? then 1 else 0
  }

  /** Exactly one record per successful response, in keyword order: the
      keyword whose response is the `k`-th success gives record `k`, with the
      first five suggestions of its reply. */
  lemma {:induction false} SearchTrendsSpec(keywords: seq<string>, responses: seq<Response<seq<string>>>)
    requires |responses| == |keywords|
    ensures |SearchTrends(keywords, responses)| == Replies(responses)
    ensures forall i :: 0 <= i < |keywords| && responses[i].Reply? ==>
              && Replies(responses[..i]) < |SearchTrends(keywords, responses)|
              && SearchTrends(keywords, responses)[Replies(responses[..i])]
                 == SearchTrend(keywords[i], Take(responses[i].body, MaxSuggestions), GoogleSource)
  {
    if keywords != [] {
      var n := |keywords| - 1;
      SearchTrendsSpec(keywords[..n], responses[..n]);
      var r := SearchTrends(keywords, responses);
      var init := SearchTrends(keywords[..n], responses[..n]);
      assert r[..|init|] == init;
      forall i | 0 <= i < |keywords| && responses[i].Reply?
        ensures Replies(responses[..i]) < |r|
        ensures r[Replies(responses[..i])] == SearchTrend(keywords[i], Take(responses[i].body, MaxSuggestions), GoogleSource)
      {
        if i < n {
          assert responses[..n][..i] == responses[..i];
          assert responses[..n][i] == responses[i] && keywords[..n][i] == keywords[i];
        } else {
          assert responses[..i] == responses[..n];
        }
      }
    }
  }

  /** One call of the Google adapter on the cache `entries`, read at `now`. */
  function GoogleRun(entries: Entries, keywords: seq<string>, responses: seq<Response<seq<string>>>, now: int): Run
    requires |responses| == |Take(keywords, MaxQueriedKeywords)|
  {
    var hit := Lookup(entries, GoogleKey(keywords), now);
    if hit.Some? then Run(hit.value, None)
    else Run(SearchTrends(Take(keywords, MaxQueriedKeywords), responses), Some(SearchTtlMinutes))
  }

  /** `fetchGoogleTrends`: a fresh hit is returned as stored; otherwise the
      first three keywords are queried in order, and the result, empty or
      not, is stored for two hours. */
  method FetchGoogleTrends(cache: Cache<seq<TrendRecord>>, keywords: seq<string>,
                           responses: seq<Response<seq<string>>>, now: int, doneAt: int)
    returns (trends: seq<TrendRecord>)
    requires |responses| == |Take(keywords, MaxQueriedKeywords)|
    requires WellShaped(cache.entries)
    modifies cache
    ensures trends == GoogleRun(old(cache.entries), keywords, responses, now).records
    ensures cache.entries == Commit(old(cache.entries), GoogleKey(keywords),
                                    GoogleRun(old(cache.entries), keywords, responses, now), doneAt)
    ensures WellShaped(cache.entries) && SearchShaped(trends)
  {
    var key := GoogleKey(keywords);
    var cached := cache.Get(key, now);
    if cached.Some? {
      HitHasShape(cache.entries, key, now);
      KeyShapes(keywords, cached.value);
      return cached.value;
    }
    var queried := Take(keywords, MaxQueriedKeywords);
    trends := [];
    var i := 0;
    while i < |queried|
      invariant 0 <= i <= |queried|
      invariant trends == SearchTrends(queried[..i], responses[..i])
    {
      assert queried[..i + 1][..i] == queried[..i] && responses[..i + 1][..i] == responses[..i];
      match responses[i] {
        case Reply(suggestions) =>
          trends := trends + [SearchTrend(queried[i], Take(suggestions, MaxSuggestions), GoogleSource)];
        case Fail =>
      }
      i := i + 1;
    }
    assert queried[..i] == queried && responses[..i] == responses;
    KeyShapes(keywords, trends);
    StoreKeepsShape(cache.entries, key, trends, doneAt, SearchTtlMinutes);
    cache.Set(key, trends, SearchTtlMinutes, doneAt);
  }

  // ---------------------------------------------------------------------
  // Trending topics (the X.com adapter)

  /** One trend as the trends site lists it: an object with optional name,
      query and volume fields (empty when missing), or a bare string. */
  datatype RawTrend =
    | TrendObject(name: string, query: string, volume: string, tweetVolume: string)
    | TrendText(text: string)

  /** `name || query || trend` and `volume || tweet_volume || 'N/A'`: the
      name is the first non-empty of name and query (a bare string is its own
      name), and the volume falls back to `N/A`, so it is never empty. */
  function TopicOf(t: RawTrend): (r: TrendRecord)
    ensures r.TopicTrend? && r.source == XcomSource && r.volume != ""
    ensures t.TrendObject? ==> r.name == (if t.name != "" then t.name else t.query)
    ensures t.TrendObject? && t.volume != "" ==> r.volume == t.volume
    ensures t.TrendObject? && t.volume == "" && t.tweetVolume != "" ==> r.volume == t.tweetVolume
    ensures t.TrendObject? && t.volume == "" && t.tweetVolume == "" ==> r.volume == "N/A"
    ensures t.TrendText? ==> r.name == t.text && r.volume == "N/A"
  {
    match t
    case TrendObject(name, query, volume, tweetVolume) =>
      TopicTrend(if name != "" then name else query,
                 if volume != "" then volume else if tweetVolume != "" then tweetVolume else "N/A",
                 XcomSource)
    case TrendText(text) => TopicTrend(text, "N/A", XcomSource)
  }

  /** The listed trends as topic records, one each and in order; every
      record is a topic of the X.com source with a non-empty volume. */
  function TopicsOf(raw: seq<RawTrend>): (r: seq<TrendRecord>)
    ensures |r| == |raw|
    ensures forall i :: 0 <= i < |raw| ==> r[i] == TopicOf(raw[i])
    ensures forall x :: x in r ==> x.TopicTrend? && x.source == XcomSource && x.volume != ""
  {
    seq(|raw|, i requires 0 <= i < |raw| => TopicOf(raw[i]))
  }

  /** The fixed topics returned, and not stored, when the request fails. */
  const XcomFallback: seq<TrendRecord> := [
    TopicTrend("UK Cost of Living", "High", XcomSource),
    TopicTrend("Local Business", "Medium", XcomSource),
    TopicTrend("Winter Weather UK", "Medium", XcomSource)
  ]

  /** One call of the X.com adapter. A reply without a trend list yields an
      empty list, which is stored like any other. */
  function XcomRun(entries: Entries, response: Response<Option<seq<RawTrend>>>, now: int): Run
  {
    var hit := Lookup(entries, XcomKey, now);
    if hit.Some? then Run(hit.value, None)
    else match response
      case Fail => Run(XcomFallback, None)
      case Reply(None) => Run([], Some(TopicTtlMinutes))
      case Reply(Some(raw)) => Run(TopicsOf(Take(raw, MaxTopics)), Some(TopicTtlMinutes))
  }

  /** On a miss the result is the first ten listed trends, stored for two
      hours, or on failure exactly the fixed fallback, not stored. */
  lemma XcomRunSpec(entries: Entries, response: Response<Option<seq<RawTrend>>>, now: int)
    requires Lookup(entries, XcomKey, now).None?
    ensures response.Fail? ==> XcomRun(entries, response, now) == Run(XcomFallback, None)
    ensures response.Reply? ==> XcomRun(entries, response, now).storeMinutes == Some(TopicTtlMinutes)
    ensures response.Reply? && response.body.Some? ==>
      |XcomRun(entries, response, now).records| == if |response.body.value| <= MaxTopics then |response.body.value| else MaxTopics
  {
  }

  /** `fetchXcomTrends`. */
  method FetchXcomTrends(cache: Cache<seq<TrendRecord>>, response: Response<Option<seq<RawTrend>>>,
                         now: int, doneAt: int)
    returns (trends: seq<TrendRecord>)
    requires WellShaped(cache.entries)
    modifies cache
    ensures trends == XcomRun(old(cache.entries), response, now).records
    ensures cache.entries == Commit(old(cache.entries), XcomKey, XcomRun(old(cache.entries), response, now), doneAt)
    ensures WellShaped(cache.entries) && TopicShaped(trends)
  {
    var cached := cache.Get(XcomKey, now);
    if cached.Some? {
      HitHasShape(cache.entries, XcomKey, now);
      KeyShapes([], cached.value);
      return cached.value;
    }
    match response {
      case Fail =>
        trends := XcomFallback;
      case Reply(body) =>
        trends := if body.Some? then TopicsOf(Take(body.value, MaxTopics)) else [];
        KeyShapes([], trends);
        StoreKeepsShape(cache.entries, XcomKey, trends, doneAt, TopicTtlMinutes);
        cache.Set(XcomKey, trends, TopicTtlMinutes, doneAt);
    }
  }

  // ---------------------------------------------------------------------
  // Forum discussions (the Reddit adapter)

  /** One hot post as the forum lists it. */
  datatype RawPost = RawPost(title: string, selftext: string, score: int, numComments: int,
                             subreddit: string, permalink: string)

  /** Some keyword, lower-cased, occurs in the lower-cased `"title selftext"`. */
  predicate Mentions(p: RawPost, keywords: seq<string>)
  {
    exists k :: k in keywords && Contains(Lower(p.title + " " + p.selftext), Lower(k))
  }

  /** The posts that mention a keyword, in listing order. */
  function Matching(posts: seq<RawPost>, keywords: seq<string>): (r: seq<RawPost>)
    ensures |r| <= |posts|
    ensures forall p :: p in r ==> p in posts && Mentions(p, keywords)
  {
    if posts == [] then []
    else (if Mentions(posts[0], keywords) then [posts[0]] else []) + Matching(posts[1..], keywords)
  }

  /** A post is kept exactly when it mentions a keyword. */
  lemma {:induction false} MatchingSpec(posts: seq<RawPost>, keywords: seq<string>)
    ensures forall p :: p in Matching(posts, keywords) <==> p in posts && Mentions(p, keywords)
  {
    if posts != [] {
      MatchingSpec(posts[1..], keywords);
      assert posts == [posts[0]] + posts[1..];
    }
  }

  /** The filter keeps listing order: filtering a concatenation filters each
      part and concatenates the results, so the posts kept from the front of
      the listing come first. */
  lemma {:induction false} MatchingAppend(a: seq<RawPost>, b: seq<RawPost>, keywords: seq<string>)
    ensures Matching(a + b, keywords) == Matching(a, keywords) + Matching(b, keywords)
  {
    if a != [] {
      MatchingAppend(a[1..], b, keywords);
      assert (a + b)[1..] == a[1..] + b;
    } else {
      assert a + b == b;
    }
  }

  function DiscussionOf(p: RawPost): TrendRecord
  {
    Discussion(p.title, p.score, p.numComments, p.subreddit, "https://reddit.com" + p.permalink, RedditSource)
  }

  /** The discussions kept from one subreddit: the first two matching posts. */
  function SubredditDiscussions(children: seq<RawPost>, keywords: seq<string>): (r: seq<TrendRecord>)
    ensures |r| == if |Matching(children, keywords)| <= MaxPostsPerSubreddit then |Matching(children, keywords)|
                   else MaxPostsPerSubreddit
    ensures forall i :: 0 <= i < |r| ==> r[i] == DiscussionOf(Matching(children, keywords)[i])
  {
    var kept := Take(Matching(children, keywords), MaxPostsPerSubreddit);
    seq(|kept|, i requires 0 <= i < |kept| => DiscussionOf(kept[i]))
  }

  /** The discussions one subreddit response contributes. */
  function ResponseDiscussions(response: Response<Option<seq<RawPost>>>, keywords: seq<string>): (r: seq<TrendRecord>)
    ensures |r| <= MaxPostsPerSubreddit
    ensures !(response.Reply? && response.body.Some?) ==> r == []
    ensures response.Reply? && response.body.Some? ==> r == SubredditDiscussions(response.body.value, keywords)
  {
    match response
    case Reply(Some(children)) => SubredditDiscussions(children, keywords)
    case _ => []
  }

  /** The discussions gathered over the per-subreddit responses, in
      subreddit order. */
  function ForumDiscussions(responses: seq<Response<Option<seq<RawPost>>>>, keywords: seq<string>): (r: seq<TrendRecord>)
    ensures |r| <= MaxPostsPerSubreddit * |responses|
    ensures forall x :: x in r ==> x.Discussion? && x.source == RedditSource
  {
    if responses == [] then []
    else
      var n := |responses| - 1;
      ForumDiscussions(responses[..n], keywords) + ResponseDiscussions(responses[n], keywords)
  }

  /** Reading the first three subreddits gives a result of the forum shape. */
  lemma ForumResultShaped(responses: seq<Response<Option<seq<RawPost>>>>, keywords: seq<string>)
    requires |responses| == MaxSubreddits
    ensures ForumShaped(ForumDiscussions(responses, keywords))
  {
  }

  /** One call of the Reddit adapter over the first three subreddits. */
  function RedditRun(entries: Entries, keywords: seq<string>,
                     responses: seq<Response<Option<seq<RawPost>>>>, now: int): Run
  {
    var hit := Lookup(entries, RedditKey(keywords), now);
    if hit.Some? then Run(hit.value, None)
    else Run(ForumDiscussions(responses, keywords), Some(ForumTtlMinutes))
  }

  /** `fetchRedditDiscussions`: a fresh hit is returned as stored; otherwise
      the first three subreddits are read in order, at most two matching
      posts are kept from each, and the result is stored for two hours. */
  method FetchRedditDiscussions(cache: Cache<seq<TrendRecord>>, keywords: seq<string>,
                                responses: seq<Response<Option<seq<RawPost>>>>, now: int, doneAt: int)
    returns (discussions: seq<TrendRecord>)
    requires |responses| == |Take(UkSubreddits, MaxSubreddits)|
    requires WellShaped(cache.entries)
    modifies cache
    ensures discussions == RedditRun(old(cache.entries), keywords, responses, now).records
    ensures cache.entries == Commit(old(cache.entries), RedditKey(keywords),
                                    RedditRun(old(cache.entries), keywords, responses, now), doneAt)
    ensures WellShaped(cache.entries) && ForumShaped(discussions)
  {
    var key := RedditKey(keywords);
    var cached := cache.Get(key, now);
    if cached.Some? {
      HitHasShape(cache.entries, key, now);
      KeyShapes(keywords, cached.value);
      return cached.value;
    }
    assert |responses| == MaxSubreddits;
    discussions := ReadSubreddits(responses, keywords);
    ForumStoreKeepsShape(cache.entries, keywords, responses, doneAt);
    cache.Set(key, discussions, ForumTtlMinutes, doneAt);
  }

  /** The subreddit loop: one response per subreddit, read in order, each
      contributing its kept discussions. */
  method ReadSubreddits(responses: seq<Response<Option<seq<RawPost>>>>, keywords: seq<string>)
    returns (discussions: seq<TrendRecord>)
    ensures discussions == ForumDiscussions(responses, keywords)
  {
    discussions := [];
    var i := 0;
    while i < |responses|
      invariant 0 <= i <= |responses|
      invariant discussions == ForumDiscussions(responses[..i], keywords)
    {
      assert responses[..i + 1][..i] == responses[..i];
      discussions := discussions + ResponseDiscussions(responses[i], keywords);
      i := i + 1;
    }
    assert responses[..i] == responses;
  }

  /** Storing the discussions of three subreddits under the Reddit key keeps
      every entry of its shape. */
  lemma ForumStoreKeepsShape(entries: Entries, keywords: seq<string>,
                             responses: seq<Response<Option<seq<RawPost>>>>, at: int)
    requires WellShaped(entries) && |responses| == MaxSubreddits
    ensures ForumShaped(ForumDiscussions(responses, keywords))
    ensures WellShaped(entries[RedditKey(keywords) := Written(ForumDiscussions(responses, keywords), at, ForumTtlMinutes)])
  {
    var d := ForumDiscussions(responses, keywords);
    ForumResultShaped(responses, keywords);
    KeyShapes(keywords, d);
    StoreKeepsShape(entries, RedditKey(keywords), d, at, ForumTtlMinutes);
  }

  // ---------------------------------------------------------------------
  // News articles (the BBC adapter)

  datatype RawArticle = RawArticle(title: string, description: string, publishedAt: string, url: string)

  function ArticleOf(a: RawArticle): TrendRecord
  {
    Article(a.title, a.description, a.publishedAt, a.url, BbcSource)
  }

  /** The returned articles as article records of the news source, one each
      and in order, carrying title, description, date and url over. */
  function ArticlesOf(raw: seq<RawArticle>): (r: seq<TrendRecord>)
    ensures |r| == |raw| && NewsShaped(r)
    ensures forall i :: 0 <= i < |raw| ==>
              && r[i].Article? && r[i].title == raw[i].title && r[i].description == raw[i].description
              && r[i].publishedAt == raw[i].publishedAt && r[i].url == raw[i].url
  {
    seq(|raw|, i requires 0 <= i < |raw| => ArticleOf(raw[i]))
  }

  /** The single article returned, and not stored, when no news API key is
      configured; `isoNow` is the current time in ISO format. */
  function NewsFallback(isoNow: string): seq<TrendRecord>
  {
    [Article("UK Business Confidence Rises Despite Economic Challenges",
             "Latest surveys show small business optimism increasing across key sectors",
             isoNow, "https://bbc.co.uk/news/business", BbcSource)]
  }

  /** One call of the BBC adapter. Without an API key no request is made;
      a failed request yields an empty list that is not stored. */
  function BbcRun(entries: Entries, hasApiKey: bool, response: Response<Option<seq<RawArticle>>>,
                  isoNow: string, now: int): Run
  {
    var hit := Lookup(entries, BbcKey, now);
    if hit.Some? then Run(hit.value, None)
    else if !hasApiKey then Run(NewsFallback(isoNow), None)
    else match response
      case Fail => Run([], None)
      case Reply(None) => Run([], Some(NewsTtlMinutes))
      case Reply(Some(raw)) => Run(ArticlesOf(raw), Some(NewsTtlMinutes))
  }

  /** A fresh hit is returned as stored. On a miss: without an API key the
      fallback article, not stored; a failed request nothing, not stored; a
      reply one record per returned article, stored for four hours. */
  lemma BbcRunSpec(entries: Entries, hasApiKey: bool, response: Response<Option<seq<RawArticle>>>,
                   isoNow: string, now: int)
    ensures Lookup(entries, BbcKey, now).Some? ==>
              BbcRun(entries, hasApiKey, response, isoNow, now) == Run(Lookup(entries, BbcKey, now).value, None)
    ensures Lookup(entries, BbcKey, now).None? && !hasApiKey ==>
              BbcRun(entries, hasApiKey, response, isoNow, now) == Run(NewsFallback(isoNow), None)
    ensures Lookup(entries, BbcKey, now).None? && hasApiKey && response.Fail? ==>
              BbcRun(entries, hasApiKey, response, isoNow, now) == Run([], None)
    ensures Lookup(entries, BbcKey, now).None? && hasApiKey && response.Reply? ==>
              && BbcRun(entries, hasApiKey, response, isoNow, now).storeMinutes == Some(NewsTtlMinutes)
              && |BbcRun(entries, hasApiKey, response, isoNow, now).records|
                 == if response.body.Some? then |response.body.value| else 0
  {
  }

  /** `fetchBBCNews`. */
  method FetchBbcNews(cache: Cache<seq<TrendRecord>>, hasApiKey: bool,
                      response: Response<Option<seq<RawArticle>>>, isoNow: string, now: int, doneAt: int)
    returns (articles: seq<TrendRecord>)
    requires WellShaped(cache.entries)
    modifies cache
    ensures articles == BbcRun(old(cache.entries), hasApiKey, response, isoNow, now).records
    ensures cache.entries == Commit(old(cache.entries), BbcKey,
                                    BbcRun(old(cache.entries), hasApiKey, response, isoNow, now), doneAt)
    ensures WellShaped(cache.entries) && NewsShaped(articles)
  {
    var cached := cache.Get(BbcKey, now);
    if cached.Some? {
      HitHasShape(cache.entries, BbcKey, now);
      KeyShapes([], cached.value);
      return cached.value;
    }
    if !hasApiKey {
      return NewsFallback(isoNow);
    }
    match response {
      case Fail =>
        articles := [];
      case Reply(body) =>
        articles := if body.Some? then ArticlesOf(body.value) else [];
        KeyShapes([], articles);
        StoreKeepsShape(cache.entries, BbcKey, articles, doneAt, NewsTtlMinutes);
        cache.Set(BbcKey, articles, NewsTtlMinutes, doneAt);
    }
  }

  // ---------------------------------------------------------------------
  // Repeated calls

  /** A call that stored its result is answered from the cache, whatever
      the upstream would now reply, by any repeat less than two hours after
      it finished. */
  lemma GoogleRepeatIsServedFromCache(entries: Entries, keywords: seq<string>,
                                      first: seq<Response<seq<string>>>, second: seq<Response<seq<string>>>,
                                      now: int, doneAt: int, later: int)
    requires |first| == |Take(keywords, MaxQueriedKeywords)| && |second| == |first|
    requires later - doneAt < SearchTtlMinutes * MillisPerMinute
    requires Lookup(entries, GoogleKey(keywords), now).None?
    ensures var run := GoogleRun(entries, keywords, first, now);
            GoogleRun(Commit(entries, GoogleKey(keywords), run, doneAt), keywords, second, later)
            == Run(run.records, None)
  {
  }

  /** The same holds for the forum adapter. */
  lemma RedditRepeatIsServedFromCache(entries: Entries, keywords: seq<string>,
                                      first: seq<Response<Option<seq<RawPost>>>>,
                                      second: seq<Response<Option<seq<RawPost>>>>,
                                      now: int, doneAt: int, later: int)
    requires later - doneAt < ForumTtlMinutes * MillisPerMinute
    requires Lookup(entries, RedditKey(keywords), now).None?
    ensures var run := RedditRun(entries, keywords, first, now);
            RedditRun(Commit(entries, RedditKey(keywords), run, doneAt), keywords, second, later)
            == Run(run.records, None)
  {
  }

  /** The fallbacks are never stored, so the next call asks the upstream
      again. */
  lemma FallbacksAreNotStored(entries: Entries, isoNow: string, response: Response<Option<seq<RawArticle>>>,
                              now: int, at: int)
    requires Lookup(entries, XcomKey, now).None? && Lookup(entries, BbcKey, now).None?
    ensures Commit(entries, XcomKey, XcomRun(entries, Fail, now), at) == entries
    ensures XcomRun(entries, Fail, now).records == XcomFallback
    ensures Commit(entries, BbcKey, BbcRun(entries, false, response, isoNow, now), at) == entries
    ensures BbcRun(entries, false, response, isoNow, now).records == NewsFallback(isoNow)
  {
  }

  // ---------------------------------------------------------------------
  // Aggregation

  /** An analysis as the trend service produces it. */
  datatype Snapshot = Snapshot(trends: TrendBundle, postIdeas: seq<PostIdea>, cached: bool)

  function ValueOrEmpty(s: Settled<seq<TrendRecord>>): seq<TrendRecord>
  {
    if s.Fulfilled? then s.value else []
  }

  /** The result shaping of `analyzeTrends`: a rejected adapter contributes
      an empty list, a fulfilled one its value unchanged; the ideas come from
      the idea generator, which fails exactly when there is no business data,
      and that failure becomes the single analysis error. */
  function ShapeAnalysis(business: Option<BusinessData>,
                         google: Settled<seq<TrendRecord>>, xcom: Settled<seq<TrendRecord>>,
                         reddit: Settled<seq<TrendRecord>>, bbc: Settled<seq<TrendRecord>>): (res: Result<Snapshot>)
    ensures res.Err? <==> business.None?
    ensures res.Err? ==> res.error == AnalyzeFailure
    ensures res.Ok? ==>
      && (google.Fulfilled? ==> res.value.trends.googleTrends == google.value)
      && (google.Rejected? ==> res.value.trends.googleTrends == [])
      && (xcom.Fulfilled? ==> res.value.trends.xcomTrends == xcom.value)
      && (xcom.Rejected? ==> res.value.trends.xcomTrends == [])
      && (reddit.Fulfilled? ==> res.value.trends.redditDiscussions == reddit.value)
      && (reddit.Rejected? ==> res.value.trends.redditDiscussions == [])
      && (bbc.Fulfilled? ==> res.value.trends.bbcArticles == bbc.value)
      && (bbc.Rejected? ==> res.value.trends.bbcArticles == [])
      && !res.value.cached
      && res.value.postIdeas == Generator.GeneratePostIdeas(business.value, res.value.trends)
      && 3 <= |res.value.postIdeas| <= 5
  {
    var trends := TrendBundle(ValueOrEmpty(google), ValueOrEmpty(xcom), ValueOrEmpty(reddit), ValueOrEmpty(bbc));
    match business
    case None => Err(AnalyzeFailure)
    case Some(b) => Ok(Snapshot(trends, Generator.GeneratePostIdeas(b, trends), false))
  }

  /** A rejected adapter changes nothing but its own list, which becomes
      empty: for each of the four adapters, the other three lists are those
      of the run in which it was fulfilled, and the whole analysis is the one
      it would give had the adapter returned nothing. */
  lemma RejectionIsIsolated(business: Option<BusinessData>, v: seq<TrendRecord>, g: Settled<seq<TrendRecord>>,
                            x: Settled<seq<TrendRecord>>, r: Settled<seq<TrendRecord>>, n: Settled<seq<TrendRecord>>)
    requires business.Some?
    ensures ShapeAnalysis(business, Rejected, x, r, n).value.trends
            == ShapeAnalysis(business, Fulfilled(v), x, r, n).value.trends.(googleTrends := [])
    ensures ShapeAnalysis(business, g, Rejected, r, n).value.trends
            == ShapeAnalysis(business, g, Fulfilled(v), r, n).value.trends.(xcomTrends := [])
    ensures ShapeAnalysis(business, g, x, Rejected, n).value.trends
            == ShapeAnalysis(business, g, x, Fulfilled(v), n).value.trends.(redditDiscussions := [])
    ensures ShapeAnalysis(business, g, x, r, Rejected).value.trends
            == ShapeAnalysis(business, g, x, r, Fulfilled(v)).value.trends.(bbcArticles := [])
    ensures ShapeAnalysis(business, Rejected, x, r, n) == ShapeAnalysis(business, Fulfilled([]), x, r, n)
    ensures ShapeAnalysis(business, g, Rejected, r, n) == ShapeAnalysis(business, g, Fulfilled([]), r, n)
    ensures ShapeAnalysis(business, g, x, Rejected, n) == ShapeAnalysis(business, g, x, Fulfilled([]), n)
    ensures ShapeAnalysis(business, g, x, r, Rejected) == ShapeAnalysis(business, g, x, r, Fulfilled([]))
  {
  }

  /** Everything the upstream services deliver during one analysis. */
  datatype Upstream = Upstream(
    suggestions: seq<Response<seq<string>>>,
    topics: Response<Option<seq<RawTrend>>>,
    forum: seq<Response<Option<seq<RawPost>>>>,
    hasNewsApiKey: bool,
    news: Response<Option<seq<RawArticle>>>,
    isoNow: string)

  /** The start time of an analysis and the finish time of each adapter. */
  datatype Timing = Timing(start: int, googleDone: int, xcomDone: int, redditDone: int, bbcDone: int)

  /** The adapters' keys are distinct, so each adapter reads at the start
      time what it would have read before the others wrote. */
  lemma AdaptersReadIndependently(e0: Entries, keywords: seq<string>, up: Upstream, t: Timing)
    requires |up.suggestions| == |Take(keywords, MaxQueriedKeywords)|
    ensures var e1 := Commit(e0, GoogleKey(keywords), GoogleRun(e0, keywords, up.suggestions, t.start), t.googleDone);
            var e2 := Commit(e1, XcomKey, XcomRun(e1, up.topics, t.start), t.xcomDone);
            var e3 := Commit(e2, RedditKey(keywords), RedditRun(e2, keywords, up.forum, t.start), t.redditDone);
            && XcomRun(e1, up.topics, t.start) == XcomRun(e0, up.topics, t.start)
            && RedditRun(e2, keywords, up.forum, t.start) == RedditRun(e0, keywords, up.forum, t.start)
            && BbcRun(e3, up.hasNewsApiKey, up.news, up.isoNow, t.start)
               == BbcRun(e0, up.hasNewsApiKey, up.news, up.isoNow, t.start)
  {
    KeysNeverCollide(keywords, keywords);
    var g := GoogleRun(e0, keywords, up.suggestions, t.start);
    var e1 := Commit(e0, GoogleKey(keywords), g, t.googleDone);
    CommitOtherKey(e0, GoogleKey(keywords), g, t.googleDone, XcomKey, t.start);
    var x := XcomRun(e1, up.topics, t.start);
    var e2 := Commit(e1, XcomKey, x, t.xcomDone);
    CommitOtherKey(e0, GoogleKey(keywords), g, t.googleDone, RedditKey(keywords), t.start);
    CommitOtherKey(e1, XcomKey, x, t.xcomDone, RedditKey(keywords), t.start);
    var r := RedditRun(e2, keywords, up.forum, t.start);
    CommitOtherKey(e0, GoogleKey(keywords), g, t.googleDone, BbcKey, t.start);
    CommitOtherKey(e1, XcomKey, x, t.xcomDone, BbcKey, t.start);
    CommitOtherKey(e2, RedditKey(keywords), r, t.redditDone, BbcKey, t.start);
  }

  /** `analyzeTrends`. The four adapters read the cache at the start time,
      before any of them writes, and use four distinct keys; so running them
      one after another gives the result and the cache the concurrent run
      gives. None of the adapters ever rejects. */
  method AnalyzeTrends(cache: Cache<seq<TrendRecord>>, business: Option<BusinessData>, keywords: seq<string>,
                       up: Upstream, t: Timing)
    returns (res: Result<Snapshot>)
    requires |up.suggestions| == |Take(keywords, MaxQueriedKeywords)|
    requires |up.forum| == |Take(UkSubreddits, MaxSubreddits)|
    requires WellShaped(cache.entries)
    modifies cache
    ensures WellShaped(cache.entries)
    ensures
      var e := old(cache.entries);
      var g := GoogleRun(e, keywords, up.suggestions, t.start);
      var x := XcomRun(e, up.topics, t.start);
      var r := RedditRun(e, keywords, up.forum, t.start);
      var n := BbcRun(e, up.hasNewsApiKey, up.news, up.isoNow, t.start);
      && res == ShapeAnalysis(business, Fulfilled(g.records), Fulfilled(x.records),
                              Fulfilled(r.records), Fulfilled(n.records))
      && cache.entries == Commit(Commit(Commit(Commit(e, GoogleKey(keywords), g, t.googleDone),
                                               XcomKey, x, t.xcomDone),
                                        RedditKey(keywords), r, t.redditDone),
                                 BbcKey, n, t.bbcDone)
  {
    AdaptersReadIndependently(cache.entries, keywords, up, t);
    var google := FetchGoogleTrends(cache, keywords, up.suggestions, t.start, t.googleDone);
    var xcom := FetchXcomTrends(cache, up.topics, t.start, t.xcomDone);
    var reddit := FetchRedditDiscussions(cache, keywords, up.forum, t.start, t.redditDone);
    var bbc := FetchBbcNews(cache, up.hasNewsApiKey, up.news, up.isoNow, t.start, t.bbcDone);
    res := ShapeAnalysis(business, Fulfilled(google), Fulfilled(xcom), Fulfilled(reddit), Fulfilled(bbc));
  }
}
