/**
 * `SearchTool` (app/tools/search.ts): a web search that degrades step by step.
 * With an API key it asks the paid search API; when that throws, or when no key
 * is set, it tries the instant-answer service, then the encyclopedia summary,
 * then builds keyword-bucket guidance results locally.
 *
 * Every upstream answer is an input: the paid API is a function of the request
 * parameters, the two free services are functions of the request URL, and the
 * URL parser, the stop watch and the clock readings are inputs too.
 */
module Search {
  import opened Wrappers
  import opened JsText

  datatype SearchResult = SearchResult(
    title: string, url: string, snippet: string, source: string, timestamp: Option<string>)

  datatype SearchResponse = SearchResponse(
    query: string, results: seq<SearchResult>, totalResults: int, searchTime: int,
    suggestions: seq<string>)

  datatype Engine = Google | Bing | DuckDuckGo

  /** The options of `search`; an empty string or a zero count counts as not given. */
  datatype SearchOptions = SearchOptions(
    engine: Option<Engine>, num: Option<int>, location: Option<string>, language: Option<string>)

  const NoOptions := SearchOptions(None, None, None, None)

  /** Readings of `new Date()`: its ISO form and its locale form. */
  datatype Clock = Clock(isoNow: string, localeNow: string)

  /** One entry of `organic_results`; `date` is absent for undated pages. */
  datatype OrganicResult = OrganicResult(title: string, link: string, snippet: string, date: Option<string>)

  /**
   * The paid API's answer: a failed request (network error, non-ok status, body
   * that is not JSON) or the fields of the body the tool reads.
   */
  datatype SerpOutcome =
    | SerpFailed
    | SerpAnswered(organic: Option<seq<OrganicResult>>, totalResults: Option<int>,
                   relatedQueries: Option<seq<string>>)

  /** One related topic; a missing `Text` or `FirstURL` is the empty string. */
  datatype Topic = Topic(text: string, firstUrl: string)

  /** The instant-answer body; missing text fields are empty and missing topics are `[]`. */
  datatype InstantAnswer = InstantAnswer(
    heading: string, abstractText: string, abstractUrl: string, relatedTopics: seq<Topic>)

  datatype InstantOutcome = InstantFailed | InstantAnswered(answer: InstantAnswer)

  /** The page summary body; a missing field is the empty string. */
  datatype PageSummary = PageSummary(title: string, extract: string, pageUrl: string)

  datatype SummaryOutcome = SummaryFailed | SummaryAnswered(summary: PageSummary)

  /** Everything outside the tool that a search observes. */
  datatype SearchEnv = SearchEnv(
    serp: seq<(string, string)> -> SerpOutcome,
    instant: string -> InstantOutcome,
    summary: string -> SummaryOutcome,
    hostname: string -> Option<string>,
    elapsed: int,
    clock: Clock)

  // ---------------------------------------------------------------------------
  // Paid API tier
  // ---------------------------------------------------------------------------

  function EngineName(e: Engine): string {
    match e
    case Google => "google"
    case Bing => "bing"
    case DuckDuckGo => "duckduckgo"
  }

  predicate Given(s: Option<string>) { s.Some? && s.value != "" }

  /** The `URLSearchParams` of the paid request, in insertion order. */
  function SerpParams(query: string, key: string, options: SearchOptions): seq<(string, string)> {
    var num := if options.num.Some? && options.num.value != 0 then options.num.value else 10;
    [("q", query), ("api_key", key), ("engine", EngineName(options.engine.GetOr(Google))),
     ("num", IntText(num))]
    + (if Given(options.location) then [("location", options.location.value)] else [])
    + (if Given(options.language) then [("hl", options.language.value)] else [])
  }

  /** `URLSearchParams.get(name)`: the first value stored under `name`. */
  function Param(params: seq<(string, string)>, name: string): (r: Option<string>)
    ensures r.Some? <==> exists i :: 0 <= i < |params| && params[i].0 == name
    ensures r.Some? ==> exists i :: 0 <= i < |params| && params[i] == (name, r.value)
                                    && forall k :: 0 <= k < i ==> params[k].0 != name
  {
    if params == [] then None
    else if params[0].0 == name then Some(params[0].1)
    else
      var r := Param(params[1..], name);
      if r.Some? then
        var i :| 0 <= i < |params[1..]| && params[1..][i] == (name, r.value)
                 && forall k :: 0 <= k < i ==> params[1..][k].0 != name;
        assert params[i + 1] == (name, r.value);
        r
      else r
  }

  /**
   * The mapped `organic_results`; `None` when some link is not a URL, which makes
   * `new URL(link)` throw and sends the search down the free cascade.
   */
  function OrganicResults(items: seq<OrganicResult>, hostname: string -> Option<string>)
    : (r: Option<seq<SearchResult>>)
    ensures r.Some? <==> forall i :: 0 <= i < |items| ==> hostname(items[i].link).Some?
    ensures r.Some? ==> |r.value| == |items|
    ensures r.Some? ==> forall i :: 0 <= i < |items| ==>
      r.value[i] == SearchResult(items[i].title, items[i].link, items[i].snippet,
                                 hostname(items[i].link).value, items[i].date)
  {
    if items == [] then Some([])
    else
      var item := items[0];
      var host := hostname(item.link);
      var rest := OrganicResults(items[1..], hostname);
      if host.None? || rest.None? then None
      else Some([SearchResult(item.title, item.link, item.snippet, host.value, item.date)] + rest.value)
  }

  /** `searchWithSerpApi`, with `None` standing for the error it catches. */
  function SerpTier(query: string, key: string, options: SearchOptions, env: SearchEnv)
    : Option<SearchResponse>
  {
    match env.serp(SerpParams(query, key, options))
    case SerpFailed => None
    case SerpAnswered(organic, total, related) =>
      match OrganicResults(organic.GetOr([]), env.hostname)
      case None => None
      case Some(results) =>
        var reported := if total.Some? && total.value != 0 then total.value else |results|;
        Some(SearchResponse(query, results, reported, env.elapsed, related.GetOr([])))
  }

  // ---------------------------------------------------------------------------
  // Instant-answer tier
  // ---------------------------------------------------------------------------

  function InstantUrl(query: string): string {
    "https://api.duckduckgo.com/?q=" + EncodeUriComponent(query) + "&format=json&no_html=1&skip_disambig=1"
  }

  function AbstractResult(query: string, a: InstantAnswer, clock: Clock): SearchResult {
    SearchResult(if a.heading != "" then a.heading else query, a.abstractUrl, a.abstractText,
                 "DuckDuckGo", Some(clock.isoNow))
  }

  predicate Usable(t: Topic) { t.text != "" && t.firstUrl != "" }

  /** A topic's result, titled by its text up to the first " - ". */
  function TopicResult(t: Topic, clock: Clock): SearchResult {
    SearchResult(Split(t.text, " - ")[0], t.firstUrl, t.text, "DuckDuckGo", Some(clock.isoNow))
  }

  /** The results of the usable topics, in order. */
  function TopicResults(topics: seq<Topic>, clock: Clock): (r: seq<SearchResult>)
    ensures |r| <= |topics|
  {
    if topics == [] then []
    else
      var last := topics[|topics| - 1];
      TopicResults(topics[..|topics| - 1], clock)
      + (if Usable(last) then [TopicResult(last, clock)] else [])
  }

  function AbstractPart(query: string, a: InstantAnswer, clock: Clock): seq<SearchResult> {
    if a.abstractText != "" then [AbstractResult(query, a, clock)] else []
  }

  /** The instant-answer tier's list: the abstract, then the usable topics among the first five. */
  function InstantResults(query: string, a: InstantAnswer, clock: Clock): seq<SearchResult> {
    AbstractPart(query, a, clock) + TopicResults(JsSlice(a.relatedTopics, 0, 5), clock)
  }

  /** The `results` array the instant-answer tier fills with `push`. */
  method BuildInstantResults(query: string, a: InstantAnswer, clock: Clock)
    returns (results: seq<SearchResult>)
    ensures results == InstantResults(query, a, clock)
  {
    results := [];
    if a.abstractText != "" {
      results := results + [AbstractResult(query, a, clock)];
    }
    var topics := JsSlice(a.relatedTopics, 0, 5);
    var i := 0;
    while i < |topics|
      invariant 0 <= i <= |topics|
      invariant results == AbstractPart(query, a, clock) + TopicResults(topics[..i], clock)
    {
      assert topics[..i + 1][..i] == topics[..i];
      if Usable(topics[i]) {
        results := results + [TopicResult(topics[i], clock)];
      }
      i := i + 1;
    }
    assert topics[..|topics|] == topics;
  }

  // ---------------------------------------------------------------------------
  // Encyclopedia tier
  // ---------------------------------------------------------------------------

  function SummaryUrl(query: string): string {
    "https://en.wikipedia.org/api/rest_v1/page/summary/" + EncodeUriComponent(query)
  }

  function SummaryResult(p: PageSummary, clock: Clock): SearchResult {
    SearchResult(p.title, p.pageUrl, p.extract, "Wikipedia", Some(clock.isoNow))
  }

  // ---------------------------------------------------------------------------
  // Contextual tier
  // ---------------------------------------------------------------------------

  datatype Category = TimeCategory | WeatherCategory | ProgrammingCategory | NewsCategory

  /** The categories in the order the tool tests them. */
  const Categories: seq<Category> := [TimeCategory, WeatherCategory, ProgrammingCategory, NewsCategory]

  function Keywords(c: Category): seq<string> {
    match c
    case TimeCategory => ["time", "date", "today"]
    case WeatherCategory => ["weather", "temperature", "forecast"]
    case ProgrammingCategory => ["programming", "code", "javascript", "python"]
    case NewsCategory => ["news", "latest", "current events"]
  }

  /** The lower-cased query contains one of the category's keywords. */
  predicate Matches(lowerQuery: string, c: Category) {
    ContainsAny(lowerQuery, Keywords(c))
  }

  function CategoryTitle(c: Category): string {
    match c
    case TimeCategory => "Current Time and Date Information"
    case WeatherCategory => "Weather Information"
    case ProgrammingCategory => "Programming and Development Resources"
    case NewsCategory => "Latest News and Current Events"
  }

  function CategoryUrl(c: Category): string {
    match c
    case TimeCategory => "https://time.is"
    case WeatherCategory => "https://weather.com"
    case ProgrammingCategory => "https://developer.mozilla.org"
    case NewsCategory => "https://news.google.com"
  }

  const TimeSnippetTail: string :=
    ". For more precise time information, use the time tool in this assistant."
  const WeatherSnippet: string :=
    "For current weather information, use the weather tool in this assistant. "
    + "Provide a location to get real-time weather data."
  const ProgrammingSnippet: string :=
    "Find comprehensive programming documentation, tutorials, and examples. "
    + "This assistant can also help with code questions directly."
  const NewsSnippet: string :=
    "For the most current news, visit major news websites. Note: This assistant "
    + "provides general information but may not have the very latest breaking news."

  /** The snippet; only the time category's quotes the clock, in its locale form. */
  function CategorySnippet(c: Category, clock: Clock): string {
    match c
    case TimeCategory => "Current time: " + clock.localeNow + TimeSnippetTail
    case WeatherCategory => WeatherSnippet
    case ProgrammingCategory => ProgrammingSnippet
    case NewsCategory => NewsSnippet
  }

  function CategorySource(c: Category): string {
    match c
    case TimeCategory => "Time Service"
    case WeatherCategory => "Weather Service"
    case ProgrammingCategory => "Developer Resources"
    case NewsCategory => "News Aggregator"
  }

  function CategoryResult(c: Category, clock: Clock): SearchResult {
    SearchResult(CategoryTitle(c), CategoryUrl(c), CategorySnippet(c, clock), CategorySource(c),
                 Some(clock.isoNow))
  }

  const GuidanceSnippet: string :=
    "For comprehensive web search results, try searching on DuckDuckGo, Google, "
    + "or other search engines. This assistant can help answer questions directly."

  function GuidanceResult(query: string, clock: Clock): SearchResult {
    SearchResult("Search Results for \"" + query + "\"",
                 "https://duckduckgo.com/?q=" + EncodeUriComponent(query),
                 GuidanceSnippet, "Search Guidance", Some(clock.isoNow))
  }

  /** The category's result when the query names it, nothing otherwise. */
  function Part(lowerQuery: string, c: Category, clock: Clock): seq<SearchResult> {
    if Matches(lowerQuery, c) then [CategoryResult(c, clock)] else []
  }

  /** One result per category that matches, in the order of `cats`. */
  function MatchedResults(lowerQuery: string, cats: seq<Category>, clock: Clock): (r: seq<SearchResult>)
    ensures |r| <= |cats|
  {
    if cats == [] then []
    else MatchedResults(lowerQuery, cats[..|cats| - 1], clock) + Part(lowerQuery, cats[|cats| - 1], clock)
  }

  /** The matched results, or the guidance result alone when there are none. */
  function OrGuidance(query: string, matched: seq<SearchResult>, clock: Clock): seq<SearchResult> {
    if matched == [] then [GuidanceResult(query, clock)] else matched
  }

  /** `generateContextualResults(query)`: the matched categories, or the guidance result alone. */
  function ContextualResults(query: string, clock: Clock): seq<SearchResult> {
    OrGuidance(query, MatchedResults(ToLower(query), Categories, clock), clock)
  }

  /** One `if (...) results.push(...)` step of `generateContextualResults`. */
  method PushIfMatches(results: seq<SearchResult>, lowerQuery: string, c: Category, clock: Clock)
    returns (pushed: seq<SearchResult>)
    ensures pushed == results + Part(lowerQuery, c, clock)
  {
    pushed := results;
    if Matches(lowerQuery, c) {
      pushed := pushed + [CategoryResult(c, clock)];
    }
  }

  /** The category tests of `generateContextualResults`, in order, each pushing on a match. */
  method PushMatchingCategories(lowerQuery: string, clock: Clock) returns (results: seq<SearchResult>)
    ensures results == MatchedResults(lowerQuery, Categories, clock)
  {
    results := [];
    results := PushIfMatches(results, lowerQuery, TimeCategory, clock);
    assert results == Part(lowerQuery, TimeCategory, clock);
    results := PushIfMatches(results, lowerQuery, WeatherCategory, clock);
    results := PushIfMatches(results, lowerQuery, ProgrammingCategory, clock);
    results := PushIfMatches(results, lowerQuery, NewsCategory, clock);
    MatchedResultsOfCategories(lowerQuery, clock);
  }

  /** The `results` array `generateContextualResults` fills. */
  method GenerateContextualResults(query: string, clock: Clock) returns (results: seq<SearchResult>)
    ensures results == ContextualResults(query, clock)
  {
    var lowerQuery := ToLower(query);
    results := PushMatchingCategories(lowerQuery, clock);
    if |results| == 0 {
      results := results + [GuidanceResult(query, clock)];
    }
  }

  /** `MatchedResults` over the four categories, one `Part` each. */
  lemma MatchedResultsOfCategories(lowerQuery: string, clock: Clock)
    ensures MatchedResults(lowerQuery, Categories, clock)
         == Part(lowerQuery, TimeCategory, clock) + Part(lowerQuery, WeatherCategory, clock)
          + Part(lowerQuery, ProgrammingCategory, clock) + Part(lowerQuery, NewsCategory, clock)
  {
    var c1, c2, c3 := [TimeCategory], [TimeCategory, WeatherCategory],
                      [TimeCategory, WeatherCategory, ProgrammingCategory];
    assert c1[..0] == [];
    assert MatchedResults(lowerQuery, c1, clock) == Part(lowerQuery, TimeCategory, clock);
    assert c2[..1] == c1;
    assert MatchedResults(lowerQuery, c2, clock)
        == MatchedResults(lowerQuery, c1, clock) + Part(lowerQuery, WeatherCategory, clock);
    assert c3[..2] == c2;
    assert MatchedResults(lowerQuery, c3, clock)
        == MatchedResults(lowerQuery, c2, clock) + Part(lowerQuery, ProgrammingCategory, clock);
    assert Categories[..3] == c3;
  }

  /** `generateSearchSuggestions(query)`: the first three of six templates. */
  function SearchSuggestions(query: string): seq<string> {
    JsSlice([query + " tutorial", query + " guide", query + " examples", "what is " + query,
             "how to " + query, query + " 2024"], 0, 3)
  }

  /** `getMockSearchResults(query, startTime)`. */
  function MockSearchResults(query: string, elapsed: int, clock: Clock): SearchResponse {
    SearchResponse(
      query,
      [SearchResult("Search results for \"" + query + "\"", "https://example.com",
                    "Search functionality is currently in development. Please configure a "
                    + "search API key for full functionality.",
                    "Local Assistant", Some(clock.isoNow))],
      1, elapsed, [query + " tutorial", query + " guide", query + " examples"])
  }

  // ---------------------------------------------------------------------------
  // The cascade
  // ---------------------------------------------------------------------------

  /**
   * `searchWithFallback`: the instant answer when it has a result, else the page
   * summary when it has an extract, else the contextual results with suggestions.
   */
  function FallbackSearch(query: string, env: SearchEnv): SearchResponse {
    var instant := match env.instant(InstantUrl(query))
                   case InstantFailed => []
                   case InstantAnswered(a) => InstantResults(query, a, env.clock);
    var summary := env.summary(SummaryUrl(query));
    if |instant| > 0 then
      SearchResponse(query, instant, |instant|, env.elapsed, [])
    else if summary.SummaryAnswered? && summary.summary.extract != "" then
      SearchResponse(query, [SummaryResult(summary.summary, env.clock)], 1, env.elapsed, [])
    else
      var results := ContextualResults(query, env.clock);
      SearchResponse(query, results, |results|, env.elapsed, SearchSuggestions(query))
  }

  /** `search(query, options)` with the key `key` (empty when unset). */
  function SearchSpec(key: string, query: string, options: SearchOptions, env: SearchEnv)
    : SearchResponse
  {
    if key != "" then
      match SerpTier(query, key, options, env)
      case Some(r) => r
      case None => FallbackSearch(query, env)
    else FallbackSearch(query, env)
  }

  /** `searchWithFallback`, building the tiers' lists as the tool does. */
  method SearchWithFallback(query: string, env: SearchEnv) returns (r: SearchResponse)
    ensures r == FallbackSearch(query, env)
  {
    var outcome := env.instant(InstantUrl(query));
    if outcome.InstantAnswered? {
      var results := BuildInstantResults(query, outcome.answer, env.clock);
      if |results| > 0 {
        return SearchResponse(query, results, |results|, env.elapsed, []);
      }
    }
    var summary := env.summary(SummaryUrl(query));
    if summary.SummaryAnswered? && summary.summary.extract != "" {
      return SearchResponse(query, [SummaryResult(summary.summary, env.clock)], 1, env.elapsed, []);
    }
    var results := GenerateContextualResults(query, env.clock);
    r := SearchResponse(query, results, |results|, env.elapsed, SearchSuggestions(query));
  }

  /** The tool's one piece of state: the API key, empty while unset. */
  class SearchTool {
    var serpApiKey: string

    constructor()
      ensures serpApiKey == ""
    {
      serpApiKey := "";
    }

    method SetApiKey(key: string)
      modifies this
      ensures serpApiKey == key
    {
      serpApiKey := key;
    }

    /** `search(query, options)`: the paid API when a key is set and it answers, else the cascade. */
    method Search(query: string, options: SearchOptions, env: SearchEnv) returns (r: SearchResponse)
      ensures r == SearchSpec(serpApiKey, query, options, env)
    {
      if serpApiKey != "" {
        var api := SerpTier(query, serpApiKey, options, env);
        if api.Some? {
          return api.value;
        }
      }
      r := SearchWithFallback(query, env);
    }

    /** `searchNews(query, options)`: a Google search for the query followed by " news". */
    method SearchNews(query: string, language: Option<string>, env: SearchEnv)
      returns (r: SearchResponse)
      ensures r == SearchSpec(serpApiKey, query + " news", NewsOptions(language), env)
    {
      r := Search(query + " news", NewsOptions(language), env);
    }

    /** `searchImages(query, options)`: a Google search for the query followed by " images". */
    method SearchImages(query: string, env: SearchEnv) returns (r: SearchResponse)
      ensures r == SearchSpec(serpApiKey, query + " images", ImageOptions, env)
    {
      r := Search(query + " images", ImageOptions, env);
    }
  }

  /** The options `searchNews` passes on: its `language`, with the engine forced to Google. */
  function NewsOptions(language: Option<string>): SearchOptions {
    SearchOptions(Some(Google), None, None, language)
  }

  /** The options `searchImages` passes on: none of its own are read, the engine is Google. */
  const ImageOptions := SearchOptions(Some(Google), None, None, None)

  // ---------------------------------------------------------------------------
  // Properties
  // ---------------------------------------------------------------------------

  /** The response always echoes the query it was asked. */
  lemma QueryEchoed(key: string, query: string, options: SearchOptions, env: SearchEnv)
    ensures SearchSpec(key, query, options, env).query == query
  {
  }

  /** Without the paid API the result list is never empty and the total is its length. */
  lemma FallbackNeverEmpty(query: string, env: SearchEnv)
    ensures |FallbackSearch(query, env).results| >= 1
    ensures FallbackSearch(query, env).totalResults == |FallbackSearch(query, env).results|
  {
    ContextualNonEmpty(query, env.clock);
  }

  /** With no key the search is the free cascade and makes no paid request. */
  lemma NoKeyMeansFallback(query: string, options: SearchOptions, env: SearchEnv)
    ensures SearchSpec("", query, options, env) == FallbackSearch(query, env)
    ensures |SearchSpec("", query, options, env).results| >= 1
  {
    FallbackNeverEmpty(query, env);
  }

  /** Any error in the paid tier (failed request or a link that is not a URL) falls through. */
  lemma PaidErrorFallsThrough(key: string, query: string, options: SearchOptions, env: SearchEnv)
    requires key != ""
    requires env.serp(SerpParams(query, key, options)).SerpFailed?
             || (var o := env.serp(SerpParams(query, key, options));
                 o.organic.Some? && exists i :: 0 <= i < |o.organic.value|
                                         && env.hostname(o.organic.value[i].link).None?)
    ensures SearchSpec(key, query, options, env) == FallbackSearch(query, env)
  {
  }

  /** A paid answer without `organic_results` is returned as it is: an empty list. */
  lemma PaidAnswerWithoutResults(key: string, query: string, options: SearchOptions, env: SearchEnv)
    requires key != ""
    requires env.serp(SerpParams(query, key, options)).SerpAnswered?
    requires env.serp(SerpParams(query, key, options)).organic.None?
    ensures SearchSpec(key, query, options, env).results == []
    ensures SearchSpec(key, query, options, env).suggestions
         == env.serp(SerpParams(query, key, options)).relatedQueries.GetOr([])
  {
  }

  /** The paid tier reports the service's total when it gives a non-zero one, else the list length. */
  lemma PaidTotal(key: string, query: string, options: SearchOptions, env: SearchEnv)
    requires key != "" && SerpTier(query, key, options, env).Some?
    ensures var o := env.serp(SerpParams(query, key, options));
            var r := SearchSpec(key, query, options, env);
            r.totalResults == (if o.totalResults.Some? && o.totalResults.value != 0
                               then o.totalResults.value else |r.results|)
    ensures var o := env.serp(SerpParams(query, key, options));
            |SearchSpec(key, query, options, env).results| == |o.organic.GetOr([])|
  {
  }

  /** The request always carries the query and the key, first and second. */
  lemma SerpParamsQueryAndKey(query: string, key: string, options: SearchOptions)
    ensures Param(SerpParams(query, key, options), "q") == Some(query)
    ensures Param(SerpParams(query, key, options), "api_key") == Some(key)
  {
    var p := SerpParams(query, key, options);
    assert p[0] == ("q", query) && p[1] == ("api_key", key);
    assert p[0].0 != "api_key";
  }

  /** The engine defaults to Google and the count to 10 (also when the count is 0). */
  lemma SerpParamsDefaults(query: string, key: string, options: SearchOptions)
    ensures options.engine.None? ==> Param(SerpParams(query, key, options), "engine") == Some("google")
    ensures options.num.None? || options.num == Some(0) ==>
      Param(SerpParams(query, key, options), "num") == Some("10")
  {
    var p := SerpParams(query, key, options);
    assert p[0].0 == "q" && p[1].0 == "api_key" && p[2].0 == "engine" && p[3].0 == "num";
    assert "q" != "engine" && "api_key" != "engine" && "q" != "num" && "api_key" != "num" && "engine" != "num";
    assert NatText(10) == NatText(1) + [DigitChar(0)];
    assert IntText(10) == "10";
  }

  /** `location` and `hl` are sent exactly when the option is given and not empty. */
  lemma SerpParamsOptional(query: string, key: string, options: SearchOptions)
    ensures Param(SerpParams(query, key, options), "location").Some? <==> Given(options.location)
    ensures Param(SerpParams(query, key, options), "hl").Some? <==> Given(options.language)
  {
    var p := SerpParams(query, key, options);
    var names := ["q", "api_key", "engine", "num"];
    assert forall i :: 0 <= i < 4 ==> p[i].0 == names[i];
    assert "location" !in names && "hl" !in names;
    if Given(options.location) {
      assert p[4] == ("location", options.location.value);
    }
    if Given(options.language) {
      assert p[|p| - 1] == ("hl", options.language.value);
    }
  }

  /** Topic results come from usable topics, and every usable topic gives one. */
  lemma {:induction false} TopicResultsMembers(topics: seq<Topic>, clock: Clock)
    ensures forall r :: r in TopicResults(topics, clock) ==>
      exists t :: t in topics && Usable(t) && r == TopicResult(t, clock)
    ensures forall t :: t in topics && Usable(t) ==> TopicResult(t, clock) in TopicResults(topics, clock)
    ensures (forall t :: t in topics ==> !Usable(t)) ==> TopicResults(topics, clock) == []
    decreases |topics|
  {
    if topics != [] {
      var init := topics[..|topics| - 1];
      TopicResultsMembers(init, clock);
      assert topics == init + [topics[|topics| - 1]];
    }
  }

  /**
   * A topic's title is the part of its text before the first " - ", and the
   * whole text when there is none.
   */
  lemma TopicTitle(t: Topic, clock: Clock)
    ensures var title := TopicResult(t, clock).title;
            |title| <= |t.text| && t.text[..|title|] == title && !Contains(title, " - ")
    ensures var title := TopicResult(t, clock).title;
            IndexOfFrom(t.text, " - ", 0) == (if title == t.text then None else Some(|title|))
  {
    var parts := Split(t.text, " - ");
    match IndexOfFrom(t.text, " - ", 0)
    case None =>
    case Some(i) =>
      assert parts[0] == t.text[..i] && |parts[0]| < |t.text|;
    JoinSplit(t.text, " - ");
    SplitPiecesAvoidSeparator(t.text, " - ");
    assert parts[0] in parts;
    if |parts| > 1 {
      assert t.text == parts[0] + " - " + Join(parts[1..], " - ");
    }
  }

  /** The instant-answer tier gives at most the abstract plus five topics, all from the service. */
  lemma InstantResultsBound(query: string, a: InstantAnswer, clock: Clock)
    ensures |InstantResults(query, a, clock)| <= 6
    ensures forall r :: r in InstantResults(query, a, clock) ==> r.source == "DuckDuckGo"
    ensures |InstantResults(query, a, clock)| == 0 <==>
      a.abstractText == "" && forall t :: t in JsSlice(a.relatedTopics, 0, 5) ==> !Usable(t)
  {
    var topics := JsSlice(a.relatedTopics, 0, 5);
    TopicResultsMembers(topics, clock);
    if exists t :: t in topics && Usable(t) {
      var t :| t in topics && Usable(t);
      assert TopicResult(t, clock) in TopicResults(topics, clock);
    }
  }

  /** Distinct categories give distinct results: their URLs differ. */
  lemma CategoryUrlInjective(a: Category, b: Category)
    requires CategoryUrl(a) == CategoryUrl(b)
    ensures a == b
  {
    assert |CategoryUrl(a)| == |CategoryUrl(b)|;
  }

  lemma CategoryIsNotGuidance(c: Category, clock: Clock)
    ensures CategoryResult(c, clock).source != "Search Guidance"
  {
  }

  /** A category's result is listed only when the category is in the list and matches. */
  lemma MatchedResultsSound(lowerQuery: string, cats: seq<Category>, clock: Clock, c: Category)
    requires CategoryResult(c, clock) in MatchedResults(lowerQuery, cats, clock)
    ensures c in cats && Matches(lowerQuery, c)
  {
    MatchedResultsFromCategories(lowerQuery, cats, clock);
    var d :| d in cats && Matches(lowerQuery, d) && CategoryResult(c, clock) == CategoryResult(d, clock);
    CategoryUrlInjective(c, d);
  }

  /** Every listed result is the result of some category of the list that matches. */
  lemma {:induction false} MatchedResultsFromCategories(lowerQuery: string, cats: seq<Category>, clock: Clock)
    ensures forall r :: r in MatchedResults(lowerQuery, cats, clock) ==>
      exists c :: c in cats && Matches(lowerQuery, c) && r == CategoryResult(c, clock)
    decreases |cats|
  {
    if cats != [] {
      var init := cats[..|cats| - 1];
      MatchedResultsFromCategories(lowerQuery, init, clock);
      assert cats == init + [cats[|cats| - 1]];
    }
  }

  /** Every category that matches has its result in `MatchedResults`. */
  lemma {:induction false} MatchedResultsComplete(lowerQuery: string, cats: seq<Category>, clock: Clock)
    ensures forall c :: c in cats && Matches(lowerQuery, c) ==>
      CategoryResult(c, clock) in MatchedResults(lowerQuery, cats, clock)
    decreases |cats|
  {
    if cats != [] {
      var init := cats[..|cats| - 1];
      MatchedResultsComplete(lowerQuery, init, clock);
      assert cats == init + [cats[|cats| - 1]];
    }
  }

  /** With no category matching, `MatchedResults` is empty. */
  lemma {:induction false} MatchedResultsNone(lowerQuery: string, cats: seq<Category>, clock: Clock)
    ensures (forall c :: c in cats ==> !Matches(lowerQuery, c)) ==> MatchedResults(lowerQuery, cats, clock) == []
    decreases |cats|
  {
    if cats != [] {
      var init := cats[..|cats| - 1];
      MatchedResultsNone(lowerQuery, init, clock);
      assert cats == init + [cats[|cats| - 1]];
    }
  }

  lemma ContextualNonEmpty(query: string, clock: Clock)
    ensures 1 <= |ContextualResults(query, clock)| <= 4
  {
  }

  /** Over any list of categories: a category's result is listed exactly when it matches. */
  lemma CategoriesListed(query: string, lowerQuery: string, cats: seq<Category>, clock: Clock)
    ensures forall c :: c in cats ==>
      (CategoryResult(c, clock) in OrGuidance(query, MatchedResults(lowerQuery, cats, clock), clock)
       <==> Matches(lowerQuery, c))
  {
    var matched := MatchedResults(lowerQuery, cats, clock);
    MatchedResultsComplete(lowerQuery, cats, clock);
    forall c | c in cats
      ensures CategoryResult(c, clock) in OrGuidance(query, matched, clock) <==> Matches(lowerQuery, c)
    {
      CategoryIsNotGuidance(c, clock);
      if CategoryResult(c, clock) in matched {
        MatchedResultsSound(lowerQuery, cats, clock, c);
      }
    }
  }

  /** Over any list of categories: the guidance result is listed exactly when none matches. */
  lemma GuidanceListed(query: string, lowerQuery: string, cats: seq<Category>, clock: Clock)
    ensures GuidanceResult(query, clock) in OrGuidance(query, MatchedResults(lowerQuery, cats, clock), clock)
        <==> forall c :: c in cats ==> !Matches(lowerQuery, c)
    ensures (forall c :: c in cats ==> !Matches(lowerQuery, c)) ==>
      OrGuidance(query, MatchedResults(lowerQuery, cats, clock), clock) == [GuidanceResult(query, clock)]
  {
    MatchedResultsNone(lowerQuery, cats, clock);
    GuidanceNotMatched(query, lowerQuery, cats, clock);
    if exists c :: c in cats && Matches(lowerQuery, c) {
      var c :| c in cats && Matches(lowerQuery, c);
      MatchedResultsNonEmpty(lowerQuery, cats, clock, c);
    }
  }

  lemma MatchedResultsNonEmpty(lowerQuery: string, cats: seq<Category>, clock: Clock, c: Category)
    requires c in cats && Matches(lowerQuery, c)
    ensures MatchedResults(lowerQuery, cats, clock) != []
  {
    MatchedResultsComplete(lowerQuery, cats, clock);
    assert CategoryResult(c, clock) in MatchedResults(lowerQuery, cats, clock);
  }

  /** The guidance result is never one of the category results. */
  lemma GuidanceNotMatched(query: string, lowerQuery: string, cats: seq<Category>, clock: Clock)
    ensures GuidanceResult(query, clock) !in MatchedResults(lowerQuery, cats, clock)
  {
    var matched := MatchedResults(lowerQuery, cats, clock);
    MatchedResultsFromCategories(lowerQuery, cats, clock);
    forall r | r in matched ensures r != GuidanceResult(query, clock) {
      var c :| c in cats && r == CategoryResult(c, clock);
      CategoryIsNotGuidance(c, clock);
      GuidanceSource(query, clock);
    }
  }

  lemma GuidanceSource(query: string, clock: Clock)
    ensures GuidanceResult(query, clock).source == "Search Guidance"
  {
  }

  /** The contextual tier holds a category's result exactly when the query names the category. */
  lemma ContextualCategories(query: string, clock: Clock)
    ensures forall c :: c in Categories ==>
      (CategoryResult(c, clock) in ContextualResults(query, clock) <==> Matches(ToLower(query), c))
  {
    CategoriesListed(query, ToLower(query), Categories, clock);
  }

  /** The guidance result appears exactly when the query names no category, and then alone. */
  lemma ContextualGuidance(query: string, clock: Clock)
    ensures GuidanceResult(query, clock) in ContextualResults(query, clock) <==>
      forall c :: c in Categories ==> !Matches(ToLower(query), c)
    ensures (forall c :: c in Categories ==> !Matches(ToLower(query), c)) ==>
      ContextualResults(query, clock) == [GuidanceResult(query, clock)]
  {
    GuidanceListed(query, ToLower(query), Categories, clock);
  }

  /** The suggestions are the same three the mock response carries. */
  lemma SuggestionsMatchMock(query: string, elapsed: int, clock: Clock)
    ensures SearchSuggestions(query) == [query + " tutorial", query + " guide", query + " examples"]
    ensures SearchSuggestions(query) == MockSearchResults(query, elapsed, clock).suggestions
  {
  }

  /** The mock response has one result and reports a total of one. */
  lemma MockShape(query: string, elapsed: int, clock: Clock)
    ensures var m := MockSearchResults(query, elapsed, clock);
            m.query == query && |m.results| == 1 && m.totalResults == |m.results|
  {
  }

  /** A news search asks the paid API for the query followed by " news", on Google. */
  lemma NewsRequest(query: string, key: string, language: Option<string>)
    ensures Param(SerpParams(query + " news", key, NewsOptions(language)), "q") == Some(query + " news")
    ensures Param(SerpParams(query + " news", key, NewsOptions(language)), "engine") == Some("google")
  {
    var p := SerpParams(query + " news", key, NewsOptions(language));
    assert p[0].0 == "q" && p[1].0 == "api_key" && p[2] == ("engine", "google");
  }
}
