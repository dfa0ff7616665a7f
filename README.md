# Trend analysis and content generation, modelled in Dafny

A model of the core of a small web application for UK local businesses.
From a business profile it derives search keywords. It then gathers current
trends from four sources: search suggestions, trending topics, forum
discussions and news articles. From these it proposes content ideas, and for
the ideas and platforms the user selects it produces post texts.

The server side is modelled as follows:

- the keyed time-to-live cache (`TtlCache`), as a class over a map;
- the four source adapters and the aggregation that settles all four
  (`Trends`); the adapters are methods on the cache whose loops are proved
  against specification functions;
- the template generators that stand in for the disabled language model
  (`Generator`);
- the content service that generates and stores one text per idea and
  platform (`Content`).

The client side is modelled as classes holding the component state and
updated by the handlers:

- the keyword editor (`KeywordEditor`);
- the selection panel of the results view (`TrendResults`);
- the five-step wizard of the earlier home page (`HomeWizard`);
- the three-stage home page (`HomePage`).

Shared list and string operations are in `Lists` and `Text`. They include
removal of every occurrence, toggling membership, de-duplication in order of
first occurrence, trimming, ASCII lower-casing, joining, substring search and
removal of the first space.

Each upstream request is an input. Its outcome is a `Response`: a decoded
body, or `Fail` for a network error, a non-2xx status or an unusable body.
Every clock reading is an explicit time in milliseconds. An adapter reads the
cache at its start time and stamps what it stores with its finish time.
Whether each database insert of the content service succeeds is an input
flag. The rows inserted are returned in order.

Two points where the model follows the code:

- The keyword-scoped cache keys are `google_trends_` or `reddit_uk_`
  followed by the keywords joined with `_`. The key depends on the order of
  the keywords (`Trends.KeysAreOrderSensitive`). Joining with `_` also lets two different
  keyword lists share a key (`Trends.KeysMayCoincide`).
- An empty list read from the cache counts as a hit, because the code tests
  the stored array for truthiness.

## Model

| member | source | states |
|---|---|---|
| `Text.Trim` | server/services/anthropic.ts:39 | The trimmed string is empty exactly when the input is all white space; otherwise it starts and ends with a non-space character. It is a slice of the input outside which there is only white space. |
| `Text.Lower` | server/services/trends.ts:128-129 | Lower-casing keeps the length and leaves no capital letter. Each capital becomes its small letter; every other character is unchanged. |
| `Text.LowerIdempotent` | server/services/trends.ts:128-129 | Lower-casing an already lower-cased text changes nothing. |
| `Text.LowerAppend` | server/services/trends.ts:128 | Lower-casing `title + " " + selftext` is lower-casing each part: it distributes over concatenation. |
| `Text.RemoveFirstSpaceAt` | server/services/anthropic.ts:117 | `replace(' ', '')` cuts out exactly the first space; everything before and after it stays in place. |
| `Text.RemoveFirstSpaceNone` | server/services/anthropic.ts:119 | A business type without a space is used unchanged in the hashtag. |
| `Lists.Take` | server/services/trends.ts:37 | `slice(0, n)` gives the first `min(n, length)` elements, a prefix of the input. |
| `Lists.WithoutMembers` | client/src/components/keyword-editor.tsx:55-57 | After filtering, a value is present exactly when it was present and differs from the removed one. |
| `Lists.WithoutAppend` | client/src/components/keyword-editor.tsx:56 | Filtering distributes over concatenation, so the kept values stay in their relative order. |
| `Lists.WithoutCounts` | client/src/components/keyword-editor.tsx:56 | Every other value keeps its multiplicity; the removed value has none left. |
| `Lists.WithoutNoDups` | client/src/components/keyword-editor.tsx:56 | Removing keeps a duplicate-free list duplicate-free. |
| `Lists.ToggleMembership` | client/src/components/trend-results.tsx:56-70 | A toggle flips the membership of its value and of no other value. |
| `Lists.ToggleNoDups` | client/src/components/trend-results.tsx:56-70 | A toggle keeps a duplicate-free selection duplicate-free. |
| `Lists.ToggleTwice` | client/src/components/trend-results.tsx:56-62 | Toggling the same value twice restores the selected values; if the value was absent it restores the list itself. |
| `Lists.DistinctSpec` | server/services/anthropic.ts:39 | `[...new Set(s)]` equals the first-occurrence reference definition, has no duplicates and holds exactly the values of `s`. |
| `TtlCache.Lookup` | server/services/trends.ts:13-19 | A read hits exactly when the key is present and the entry is younger than its TTL; a hit returns the stored data. |
| `TtlCache.LookupAfterWrite` | server/services/trends.ts:13-27 | After a write, a read of the same key returns the written data exactly while less than `ttlMinutes` minutes have passed. |
| `TtlCache.LookupOtherKey` | server/services/trends.ts:21-27 | A write does not change the reads of any other key. |
| `TtlCache.Cache.Get` | server/services/trends.ts:13-19 | `getCachedData` hits exactly when the key is present and the entry is younger than its TTL, and then returns the stored data. |
| `TtlCache.Cache.constructor` | server/services/trends.ts:11 | The cache starts empty. |
| `TtlCache.Cache.Set` | server/services/trends.ts:21-27 | The key's entry is replaced by the data stamped with the write time and the TTL in milliseconds; every other entry is unchanged. |
| `Generator.NonBlankMembers` | server/services/anthropic.ts:39 | The filter keeps exactly the candidates whose trim is non-empty. |
| `Generator.DistinctNonBlankSpec` | server/services/anthropic.ts:39 | The de-duplicated non-blank candidates keep first occurrences, have no duplicates, are the non-blank candidates and number at most the candidates. |
| `Generator.FixedKeywordsKept` | server/services/anthropic.ts:27-39 | "local business" and "uk business" always survive and are two distinct keywords. |
| `Generator.GenerateKeywords` | server/services/anthropic.ts:16-42 | The keywords are the first occurrences of the non-blank lower-cased candidates, with no duplicates, always include the two fixed ones, and number between 2 and 8. |
| `Generator.IdeaIdFacts` | server/services/anthropic.ts:56-99 | The idea ids are distinct, and `idea_4`/`idea_5` are present exactly when their condition holds. |
| `Generator.IdeaListFacts` | server/services/anthropic.ts:56-99 | The idea list has 3 to 5 ideas, starts with `idea_1`..`idea_3`, has distinct ids and scores between 0.6 and 0.8. |
| `Generator.GeneratePostIdeas` | server/services/anthropic.ts:44-102 | Three fixed ideas; `idea_4` exactly when there are search trends; `idea_5` exactly when there are news articles; distinct ids; scores in [0.6, 0.8]. |
| `Generator.PostIdeasIgnoreOtherSources` | server/services/anthropic.ts:80-99 | Only whether the search and news lists are empty affects the ideas. |
| `Generator.TwitterContent` | server/services/anthropic.ts:117 | The twitter text opens with the target emoji and the concept. It closes with the business type hashtag, first space removed, then `#LocalBusiness #UK`. |
| `Generator.InstagramContent` | server/services/anthropic.ts:119 | The instagram text opens with the concept between two sparkles. It closes with the business type hashtag, first space removed, then `#LocalBusiness #UK #Quality #Service`. |
| `Generator.FacebookContent` | server/services/anthropic.ts:121 | The facebook text opens with the concept. It closes with the business type hashtag unchanged, then `#LocalSupport`. |
| `Generator.GeneratePlatformContent` | server/services/anthropic.ts:104-125 | Every text is non-empty and quotes the idea's concept. twitter, instagram and facebook each get their own template; any other platform gets the generic text. |
| `Generator.TypeHashtags` | server/services/anthropic.ts:117-121 | With the business type's first space at index `i`, the twitter and instagram hashtags are the type with exactly that space cut out. The facebook hashtag is the type as entered. |
| `Trends.GoogleKey` | server/services/trends.ts:30 | The search key is `google_trends_` followed by the keywords joined with `_`. |
| `Trends.RedditKey` | server/services/trends.ts:106 | The forum key is `reddit_uk_` followed by the keywords joined with `_`. |
| `Trends.KeysNeverCollide` | server/services/trends.ts:30 | The four adapters' keys are pairwise distinct for all keyword lists. |
| `Trends.KeysAreOrderSensitive` | server/services/trends.ts:106 | Some reorderings change both keyword-scoped keys: `["cafe", "bristol"]` and `["bristol", "cafe"]` get different keys. |
| `Trends.KeysMayCoincide` | server/services/trends.ts:30 | `["a_b"]` and `["a", "b"]` share both keyword-scoped keys. |
| `Trends.CommitOtherKey` | server/services/trends.ts:21-27 | An adapter's write does not change reads of another adapter's key. |
| `Trends.SearchTrends` | server/services/trends.ts:37-59 | At most one record per queried keyword, each a search trend for one of those keywords with at most five suggestions and the search source. |
| `Trends.SearchTrendsSpec` | server/services/trends.ts:37-52 | Exactly one record per successful response, in keyword order. The keyword whose response is the `k`-th success gives record `k`, with the first five suggestions of its reply. |
| `Trends.SearchTrendsAllOrNothing` | server/services/trends.ts:37-59 | When all requests succeed there is one record per keyword, in keyword order; when all fail there are none. |
| `Trends.FetchGoogleTrends` | server/services/trends.ts:29-67 | A fresh hit is returned as stored. Otherwise the first three keywords are queried in order and the result is stored for 120 minutes, even when empty. The cache shape invariant is kept. |
| `Trends.TopicOf` | server/services/trends.ts:86-90 | The name is the trend's name, else its query; a bare string is its own name. The volume is the volume, else the tweet volume, else `N/A`, so it is never empty. The source is X.com. |
| `Trends.TopicsOf` | server/services/trends.ts:86-90 | Each listed trend maps to one topic record, in order. Every record is an X.com topic with a non-empty volume. |
| `Trends.XcomRunSpec` | server/services/trends.ts:69-103 | On a miss: a failure gives exactly the three fallback topics, not stored. A reply is stored for 120 minutes. A listed reply gives at most ten topics. |
| `Trends.FetchXcomTrends` | server/services/trends.ts:69-103 | The result and the new cache are those of the topic run; at most ten topic records; the invariant is kept. |
| `Trends.Matching` | server/services/trends.ts:125-130 | The kept posts are listed posts that mention a keyword, and no more than were listed. |
| `Trends.MatchingSpec` | server/services/trends.ts:127-130 | A post is kept exactly when its lower-cased title and body contain some lower-cased keyword. |
| `Trends.MatchingAppend` | server/services/trends.ts:125-131 | The filter keeps listing order: filtering a concatenation concatenates the filtered parts. So the two posts `slice(0, 2)` keeps are the first matches in listing order. |
| `Trends.SubredditDiscussions` | server/services/trends.ts:125-139 | Exactly `min(2, matches)` discussions: the first matching posts in order, each mapped with the forum URL prefix. |
| `Trends.ResponseDiscussions` | server/services/trends.ts:122-143 | A failed or childless response contributes nothing. A response with children contributes that subreddit's kept discussions, at most two. |
| `Trends.ForumDiscussions` | server/services/trends.ts:114-149 | At most two discussions per subreddit read, all discussion records of the forum source. |
| `Trends.ForumResultShaped` | server/services/trends.ts:114-149 | Reading three subreddits gives at most six discussions, all from the forum source. |
| `Trends.ReadSubreddits` | server/services/trends.ts:114-147 | The subreddit loop appends each subreddit's kept discussions in subreddit order; a failed or empty response adds nothing. |
| `Trends.ForumStoreKeepsShape` | server/services/trends.ts:149 | Storing the result of three subreddits under the Reddit key keeps every cache entry of its key's shape. |
| `Trends.FetchRedditDiscussions` | server/services/trends.ts:105-157 | A fresh hit is returned as stored. Otherwise the first three subreddits are read in order and the result, at most six discussions, is stored for 120 minutes. The invariant is kept. |
| `Trends.ArticlesOf` | server/services/trends.ts:190-196 | One record per returned article, in order. Each is a news article record carrying the title, description, date and url over. |
| `Trends.BbcRunSpec` | server/services/trends.ts:159-204 | A fresh hit is returned as stored. On a miss: with no API key, the fallback article, not stored. A failed request gives nothing, not stored. A reply gives one record per article, stored for 240 minutes. |
| `Trends.FetchBbcNews` | server/services/trends.ts:159-204 | With no API key: the single fallback article, not stored. A failed request gives an empty list, not stored. A reply is stored for 240 minutes. The invariant is kept. |
| `Trends.GoogleRepeatIsServedFromCache` | server/services/trends.ts:29-32 | After a stored search run, a repeat within two hours returns the same records from the cache, whatever the upstream would reply. |
| `Trends.RedditRepeatIsServedFromCache` | server/services/trends.ts:105-108 | The same for the forum adapter. |
| `Trends.FallbacksAreNotStored` | server/services/trends.ts:94-179 | The topic and news fallbacks leave the cache unchanged, so the next call asks the upstream again. |
| `Trends.ShapeAnalysis` | server/services/trends.ts:218-239 | Fails with the fixed message exactly when there is no business data. Otherwise a rejected adapter gives `[]` and a fulfilled one its value. The analysis is not marked cached, and its ideas are exactly those the idea generator gives for the business and the shaped trends: 3 to 5 of them. |
| `Trends.RejectionIsIsolated` | server/services/trends.ts:211-223 | For each of the four adapters, its rejection empties its own list and leaves the other three as they were. The analysis is the one it gives had the adapter returned nothing. |
| `Trends.AdaptersReadIndependently` | server/services/trends.ts:211-216 | Each adapter reads at the start time what it would read before the others wrote, because the keys are distinct. |
| `Trends.AnalyzeTrends` | server/services/trends.ts:206-240 | The result is the shaping of the four adapter runs on the initial cache. The new cache is their four writes. The cache shape invariant is kept. |
| `Content.FindIdea` | server/services/content.ts:15-16 | An idea is found exactly when one has the id; it has that id and belongs to the list. |
| `Content.FindIdeaFirst` | server/services/content.ts:15 | The idea found is the first one with that id. |
| `Content.GenerateForIdea` | server/services/content.ts:18-37 | The platform loop builds the idea's platform map and stores its rows in order. |
| `Content.GenerateContentForIdeas` | server/services/content.ts:4-45 | The idea loop returns the result map and the inserted rows that the reference definitions give. |
| `Content.IdeaEntrySpec` | server/services/content.ts:18-37 | An idea's map has exactly the selected platforms as keys. Each holds the generated text if its last store succeeded, else the error text. |
| `Content.ResultsSpec` | server/services/content.ts:11-40 | The result has entries for exactly the selected ids that name an idea. Each is the map built at the id's last selection. |
| `Content.AllStoredGivesContent` | server/services/content.ts:20-32 | When every store succeeds, every cell holds the generated text for its idea and platform. |
| `Content.IdeaRowsSpec` | server/services/content.ts:21-32 | Each row stored for an idea belongs to the analysis, that idea and a selected platform, and holds the generated text. |
| `Content.IdeaRowsCount` | server/services/content.ts:21-36 | At most one row per selected platform: exactly one each when every store succeeds, none when all fail. |
| `Content.IdeaRowsExact` | server/services/content.ts:21-36 | The platform loop appends exactly one row per successful store and none per failed one, in loop order. The platform whose store is the `k`-th success gives row `k`, holding the analysis, the idea, that platform and its generated text. |
| `Content.RowsSpec` | server/services/content.ts:14-38 | Every stored row belongs to the analysis, to a selected id naming an idea and to a selected platform, and holds the generated text. |
| `Content.RowsForLast` | server/services/content.ts:14-38 | The last selected id adds at most one row per selected platform to the rows of the ids before it. |
| `Content.RowsBound` | server/services/content.ts:14-38 | There are at most as many rows as selected ideas times selected platforms. |
| `KeywordEditor.AddedKeywordsSpec` | client/src/components/keyword-editor.tsx:61-67 | A non-blank, unlisted trimmed input is appended at the end; otherwise the list is unchanged; no duplicates are introduced. |
| `KeywordEditor.RemovedKeywordsSpec` | client/src/components/keyword-editor.tsx:55-57 | Every occurrence is removed, other values keep their counts, no duplicates are introduced. |
| `KeywordEditor.Editor.constructor` | client/src/components/keyword-editor.tsx:19-20 | The editor starts with the initial keywords and an empty input. |
| `KeywordEditor.Editor.SetNewKeyword` | client/src/components/keyword-editor.tsx:111-112 | Typing changes only the input. |
| `KeywordEditor.Editor.RemoveKeyword` | client/src/components/keyword-editor.tsx:55-59 | The stored list is the filtered list, and exactly that list is reported; the input is untouched. On a duplicate-free list, analysis stays enabled exactly when another keyword was listed. |
| `KeywordEditor.Editor.AddKeyword` | client/src/components/keyword-editor.tsx:61-68 | An accepted input is appended, reported and cleared, and analysis is enabled. Otherwise the list, the input and the reports are unchanged. |
| `KeywordEditor.Editor.HandleKeyPress` | client/src/components/keyword-editor.tsx:70-74 | Enter does what `addKeyword` does: an accepted input is appended, reported and cleared, otherwise nothing changes. Any other key changes nothing. |
| `KeywordEditor.Editor.CanAnalyze` | client/src/components/keyword-editor.tsx:131 | The analyse button is enabled exactly when no analysis is pending and the list is non-empty. |
| `KeywordEditor.AnalyzeGuard` | client/src/components/keyword-editor.tsx:55-67 | On a duplicate-free list, removing a listed keyword leaves analysis enabled exactly when another keyword was listed, so removing the last one disables it. An accepted add always enables it. |
| `TrendResults.ScoreColor` | client/src/components/trend-results.tsx:72-76 | Green exactly from 0.8, yellow exactly in [0.6, 0.8), blue exactly below 0.6. |
| `TrendResults.ScoreColorMonotone` | client/src/components/trend-results.tsx:72-76 | A higher score never gets a lower band. |
| `TrendResults.GeneratedIdeasColors` | client/src/components/trend-results.tsx:72-76 | The template ideas are never blue: the first is green, the rest yellow. |
| `TrendResults.Selection.constructor` | client/src/components/trend-results.tsx:18-19 | No ideas are selected; twitter and instagram are. |
| `TrendResults.Selection.ToggleIdea` | client/src/components/trend-results.tsx:56-62 | The idea selection is toggled: that id flips, others keep their membership, no duplicates are introduced, the platforms are untouched. Selecting an idea while a platform is selected enables generation. |
| `TrendResults.Selection.TogglePlatform` | client/src/components/trend-results.tsx:64-70 | The same for the platform selection, with the ideas untouched. |
| `TrendResults.Selection.CanGenerate` | client/src/components/trend-results.tsx:223 | The generate button is enabled exactly when nothing is pending and both selections are non-empty. |
| `TrendResults.InitialGuard` | client/src/components/trend-results.tsx:223 | With no idea selected the generate button is disabled. |
| `HomeWizard.StepNumber` | attached_assets/home_1758095318952.tsx:126-129 | Stage 1 exactly for input, stage 3 exactly for results and content, stage 2 otherwise. |
| `HomeWizard.StepNumberMonotone` | attached_assets/home_1758095318952.tsx:126-129 | The stage number never decreases along the wizard's step order. |
| `HomeWizard.Wizard.constructor` | attached_assets/home_1758095318952.tsx:13-19 | The wizard opens at input, with nothing stored, no ideas selected and twitter and instagram selected. |
| `HomeWizard.Wizard.HandleBusinessFormSubmit` | attached_assets/home_1758095318952.tsx:26-46 | A reply stores the profile with the returned keywords (or `[]`) and moves to keyword review; a failure changes nothing. |
| `HomeWizard.Wizard.HandleStartAnalysis` | attached_assets/home_1758095318952.tsx:48-72 | A no-op without business data. Otherwise it passes through analysing to results on success, or back to keyword review on failure. The request carries the current keywords. |
| `HomeWizard.Wizard.HandleIdeaToggle` | attached_assets/home_1758095318952.tsx:74-80 | Toggles the idea selection only. |
| `HomeWizard.Wizard.HandlePlatformToggle` | attached_assets/home_1758095318952.tsx:82-88 | Toggles the platform selection only. |
| `HomeWizard.Wizard.CanGenerateContent` | attached_assets/home_1758095318952.tsx:91 | Content is requested exactly when an analysis exists and both selections are non-empty. |
| `HomeWizard.Wizard.HandleGenerateContent` | attached_assets/home_1758095318952.tsx:90-114 | A no-op unless an analysis exists and both selections are non-empty. Then a reply stores the content and moves to the content step, and a failure changes nothing. |
| `HomeWizard.Wizard.HandleStartNewAnalysis` | attached_assets/home_1758095318952.tsx:116-124 | Restores exactly the opening state, in which content cannot be requested. |
| `HomePage.StepsActive` | client/src/pages/home.tsx:17-21 | Stage `i` is active exactly when the current stage is at least `i`, so the active stages form a prefix. |
| `HomePage.ActiveStepsPrefix` | client/src/pages/home.tsx:17-21 | For a current stage between 1 and 3, exactly the first that many stages are active. |
| `HomePage.Page.constructor` | client/src/pages/home.tsx:11-15 | The page opens at stage 1 with nothing stored. |
| `HomePage.Page.HandleBusinessSubmit` | client/src/pages/home.tsx:23-27 | Stores the profile and keywords, moves to stage 2 and shows the keyword editor only. |
| `HomePage.Page.SetKeywords` | client/src/pages/home.tsx:128 | The editor's list replaces the page's keywords and nothing else. |
| `HomePage.Page.HandleAnalysisComplete` | client/src/pages/home.tsx:29-32 | Stores the analysis and moves to stage 3, whose panel shows exactly when business data is present. |
| `HomePage.Page.HandleContentGenerated` | client/src/pages/home.tsx:34-36 | Stores the content without changing the stage. |
| `HomePage.Page.HandleStartNewAnalysis` | client/src/pages/home.tsx:38-44 | Restores exactly the opening state, which shows the business form. |
| `HomePage.OnePanelAtATime` | client/src/pages/home.tsx:119-152 | At most one of the business form, keyword editor and trend results panels shows at a time. |

## Left out

- Network requests, JSON decoding and the one-second delays between upstream requests. Each request's outcome is an input `Response`.
- The concurrent run of the four adapters. The model runs them one after another. Every adapter reads the cache at the common start time, and the four keys are distinct (`Trends.AdaptersReadIndependently`), so the result and final cache equal those of any interleaving. Adapters whose code cannot throw are never `Rejected`.
- The outer `catch` blocks of the search and forum adapters. Nothing inside them can throw once each request's own failure is caught, so they are unreachable.
- The processing time of an analysis and the analysis id. Both come from the clock and the storage layer.
- Trend volumes are strings; a missing field is the empty string. In the code a `tweet_volume` of the number 0 is falsy and falls back to `N/A`. The model has no numeric volume, so it does not distinguish that case.
- The generated content map is a Dafny `map`, which has no key order. The code's object keeps its keys in insertion order.
- `Trends.TopicOf`: when a listed trend object has neither a name nor a query, the code uses the whole object as the name; the model uses the empty query.
- Posts whose title or body is missing: the code lower-cases the text `undefined` in their place; the model takes both fields as strings.
- `Text.Lower` lower-cases ASCII letters only; the code uses full Unicode case mapping.
- `Generator.GeneratePlatformContent`: a platform named after an inherited object property (such as `constructor`) selects that property in the code. The model gives it the generic text.
- The language-model client, which is constructed at start-up but never called while the template generators are in use.
- The database and HTTP routes around the services. The content service's inserts are modelled by an outcome flag per idea and platform. The inserted rows are its result.
- A missing or malformed business profile in the content service. The model takes the profile as given.
- Toasts, rendering and the request hooks of the client components. The pending state of a request is a parameter of the button guards.
