/** The values exchanged between the server and the client: the business
    profile, content ideas, the per-source trend records and the analysis
    the client shows. */
module Api {

  /** The six profile fields entered in the business form. */
  datatype BusinessData = BusinessData(
    businessName: string,
    businessType: string,
    ukCity: string,
    industry: string,
    targetAudience: string,
    servicesOffered: string)

  /** One content concept proposed from the trend data. */
  datatype PostIdea = PostIdea(
    id: string,
    concept: string,
    trendSource: string,
    relevanceScore: real,
    reasoning: string)

  /** One record of one trend source; each source produces its own variant. */
  datatype TrendRecord =
    | SearchTrend(keyword: string, suggestions: seq<string>, source: string)
    | TopicTrend(name: string, volume: string, source: string)
    | Discussion(title: string, score: int, comments: int, subreddit: string, url: string, source: string)
    | Article(title: string, description: string, publishedAt: string, url: string, source: string)

  /** The four trend lists gathered by one analysis. */
  datatype TrendBundle = TrendBundle(
    googleTrends: seq<TrendRecord>,
    xcomTrends: seq<TrendRecord>,
    redditDiscussions: seq<TrendRecord>,
    bbcArticles: seq<TrendRecord>)

  /** Generated post text by idea id, then by platform. */
  type GeneratedContent = map<string, map<string, string>>

  /** An analysis as the client receives it. */
  datatype TrendAnalysis = TrendAnalysis(
    analysisId: string,
    trends: TrendBundle,
    postIdeas: seq<PostIdea>,
    cached: bool)
}
