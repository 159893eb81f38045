/**
 * The chat endpoint (app/app/api/chat/route.ts): recognising which tool a
 * message asks for, running that tool, and otherwise asking a hosted model or
 * answering with a fixed reply. Everything the endpoint reads from outside
 * (the clock, the tools' services, the model's answer, `Math.random`) is an input.
 */
module ChatRoute {
  import opened Wrappers
  import opened JsText
  import Weather
  import Search
  import Ip

  // ---------------------------------------------------------------------------
  // Tool detection
  // ---------------------------------------------------------------------------

  datatype ToolCall = TimeCall | WeatherCall(location: string) | SearchCall(query: string) | IpCall

  function ToolName(call: ToolCall): string {
    match call
    case TimeCall => "time"
    case WeatherCall(_) => "weather"
    case SearchCall(_) => "search"
    case IpCall => "ip"
  }

  const TimeKeywords: seq<string> := ["time", "clock", "what time"]
  const WeatherKeywords: seq<string> := ["weather", "temperature", "forecast"]
  const SearchKeywords: seq<string> := ["search", "find", "look up"]
  const IpKeywords: seq<string> := ["ip", "my ip", "ip address"]

  /** The tools with their keywords, in the order they are checked. */
  const ToolKeywords: seq<(string, seq<string>)> :=
    [("time", TimeKeywords), ("weather", WeatherKeywords), ("search", SearchKeywords), ("ip", IpKeywords)]

  const DefaultLocation := "New York"

  /** The keywords and optional words of the location patterns and of the search pattern. */
  const WeatherPattern: seq<string> := ["weather "]
  const TemperaturePattern: seq<string> := ["temperature "]
  const LocationOptional: seq<string> := ["in ", "for "]
  const SearchPattern: seq<string> := ["search ", "find ", "look up "]
  const SearchOptional: seq<string> := ["for "]

  /** `s` has `word` (lower case) at `p`, ignoring the case of ASCII letters as the `i` flag does. */
  predicate WordAt(s: string, word: string, p: nat) {
    p + |word| <= |s| && ToLower(s[p..p + |word|]) == word
  }

  /** `[a-zA-Z\s]`. */
  predicate IsLocationChar(c: char) { IsAsciiLetter(c) || IsJsWhitespace(c) }

  /** `.`: anything but a line terminator. */
  predicate IsQueryChar(c: char) { !IsLineTerminator(c) }

  /** The length of the longest run of `inRun` characters of `s` from `i` on (a greedy `+` or `*`). */
  function Run(s: string, i: nat, inRun: char -> bool): (n: nat)
    requires i <= |s|
    ensures i + n <= |s|
    decreases |s| - i
  {
    if i == |s| || !inRun(s[i]) then 0 else 1 + Run(s, i + 1, inRun)
  }

  /** The run is maximal: all its characters are in the class, and the next one is not. */
  lemma {:induction false} RunMaximal(s: string, i: nat, inRun: char -> bool)
    requires i <= |s|
    ensures forall k :: i <= k < i + Run(s, i, inRun) ==> inRun(s[k])
    ensures i + Run(s, i, inRun) == |s| || !inRun(s[i + Run(s, i, inRun)])
    decreases |s| - i
  {
    if i < |s| && inRun(s[i]) {
      RunMaximal(s, i + 1, inRun);
    }
  }

  /** The capture group `(class+)` at `q`: the longest non-empty run. */
  function Capture(s: string, q: nat, inRun: char -> bool): (r: Option<string>)
    requires q <= |s|
  {
    var n := Run(s, q, inRun);
    if n > 0 then Some(s[q..q + n]) else None
  }

  /** `(?:o1|o2|…)?(class+)` at `q`: each optional word in turn, then none, the first that lets the group match. */
  function MatchOptional(s: string, q: nat, optional: seq<string>, inRun: char -> bool): (r: Option<string>)
    requires q <= |s|
  {
    if optional == [] then Capture(s, q, inRun)
    else if WordAt(s, optional[0], q) && Capture(s, q + |optional[0]|, inRun).Some? then
      Capture(s, q + |optional[0]|, inRun)
    else MatchOptional(s, q, optional[1..], inRun)
  }

  /** `(?:k1|k2|…)(?:o1|…)?(class+)` at `p`, trying the keywords in order. */
  function MatchAt(s: string, p: nat, keywords: seq<string>, optional: seq<string>, inRun: char -> bool)
    : (r: Option<string>)
    requires p <= |s|
  {
    if keywords == [] then None
    else if WordAt(s, keywords[0], p) then
      match MatchOptional(s, p + |keywords[0]|, optional, inRun)
      case Some(c) => Some(c)
      case None => MatchAt(s, p, keywords[1..], optional, inRun)
    else MatchAt(s, p, keywords[1..], optional, inRun)
  }

  /** `s.match(re)` from position `from` on: the capture of the leftmost position where the pattern matches. */
  function FirstMatch(s: string, from: nat, keywords: seq<string>, optional: seq<string>, inRun: char -> bool)
    : (r: Option<string>)
    requires from <= |s|
    decreases |s| - from
  {
    if from == |s| then None
    else
      var here := MatchAt(s, from, keywords, optional, inRun);
      if here.Some? then here else FirstMatch(s, from + 1, keywords, optional, inRun)
  }

  /** One step of the search: the match here, or else the search from the next position. */
  lemma FirstMatchStep(s: string, from: nat, keywords: seq<string>, optional: seq<string>, inRun: char -> bool)
    requires from < |s|
    ensures MatchAt(s, from, keywords, optional, inRun).Some? ==>
      FirstMatch(s, from, keywords, optional, inRun) == MatchAt(s, from, keywords, optional, inRun)
    ensures MatchAt(s, from, keywords, optional, inRun).None? ==>
      FirstMatch(s, from, keywords, optional, inRun) == FirstMatch(s, from + 1, keywords, optional, inRun)
  {
  }

  /** There is no match exactly when the pattern matches at no position. */
  lemma {:induction false} FirstMatchNone(s: string, from: nat, keywords: seq<string>, optional: seq<string>,
                                          inRun: char -> bool)
    requires from <= |s|
    ensures FirstMatch(s, from, keywords, optional, inRun).None?
        <==> forall p :: from <= p < |s| ==> MatchAt(s, p, keywords, optional, inRun).None?
    decreases |s| - from
  {
    if from < |s| {
      FirstMatchStep(s, from, keywords, optional, inRun);
      if MatchAt(s, from, keywords, optional, inRun).Some? {
        assert !(forall p :: from <= p < |s| ==> MatchAt(s, p, keywords, optional, inRun).None?);
      } else {
        FirstMatchNone(s, from + 1, keywords, optional, inRun);
      }
    }
  }

  /** A match is the capture at `p`, the leftmost position where the pattern matches. */
  lemma {:induction false} FirstMatchLeftmost(s: string, from: nat, keywords: seq<string>, optional: seq<string>,
                                              inRun: char -> bool)
    returns (p: nat)
    requires from <= |s|
    requires FirstMatch(s, from, keywords, optional, inRun).Some?
    ensures from <= p < |s|
    ensures MatchAt(s, p, keywords, optional, inRun) == FirstMatch(s, from, keywords, optional, inRun)
    ensures forall q :: from <= q < p ==> MatchAt(s, q, keywords, optional, inRun).None?
    decreases |s| - from
  {
    FirstMatchStep(s, from, keywords, optional, inRun);
    if MatchAt(s, from, keywords, optional, inRun).Some? {
      p := from;
    } else {
      p := FirstMatchLeftmost(s, from + 1, keywords, optional, inRun);
    }
  }

  /**
   * Where `(?:o1|o2|…)?` leaves off at `q`: after the first optional word
   * present there that a class character follows, or at `q` itself.
   */
  function OptionalEnd(s: string, q: nat, optional: seq<string>, inRun: char -> bool): (e: nat)
    requires q <= |s|
    ensures q <= e <= |s|
    ensures e == q || exists o :: o in optional && WordAt(s, o, q) && e == q + |o|
    ensures e > q ==> Run(s, e, inRun) > 0
  {
    if optional == [] then q
    else if WordAt(s, optional[0], q) && Run(s, q + |optional[0]|, inRun) > 0 then
      assert optional[0] in optional;
      q + |optional[0]|
    else
      assert forall o :: o in optional[1..] ==> o in optional;
      OptionalEnd(s, q, optional[1..], inRun)
  }

  /** `(?:o1|…)?(class+)` captures the longest run from where the optional group leaves off. */
  lemma {:induction false} MatchOptionalEnd(s: string, q: nat, optional: seq<string>, inRun: char -> bool)
    requires q <= |s|
    ensures MatchOptional(s, q, optional, inRun) == Capture(s, OptionalEnd(s, q, optional, inRun), inRun)
  {
    if optional == [] {
      OptionalNone(s, q, optional, inRun);
    } else if WordAt(s, optional[0], q) && Run(s, q + |optional[0]|, inRun) > 0 {
      OptionalTaken(s, q, optional, inRun);
    } else {
      OptionalPassed(s, q, optional, inRun);
      MatchOptionalEnd(s, q, optional[1..], inRun);
    }
  }

  /** With no optional word left, the group consumes nothing. */
  lemma OptionalNone(s: string, q: nat, optional: seq<string>, inRun: char -> bool)
    requires q <= |s| && optional == []
    ensures OptionalEnd(s, q, optional, inRun) == q
    ensures MatchOptional(s, q, optional, inRun) == Capture(s, q, inRun)
  {
  }

  /** The first optional word is taken when it is present and a class character follows it. */
  lemma OptionalTaken(s: string, q: nat, optional: seq<string>, inRun: char -> bool)
    requires q <= |s| && optional != []
    requires WordAt(s, optional[0], q) && Run(s, q + |optional[0]|, inRun) > 0
    ensures OptionalEnd(s, q, optional, inRun) == q + |optional[0]|
    ensures MatchOptional(s, q, optional, inRun) == Capture(s, q + |optional[0]|, inRun)
  {
    assert Capture(s, q + |optional[0]|, inRun).Some?;
  }

  /** Otherwise the group goes on with the next optional word. */
  lemma OptionalPassed(s: string, q: nat, optional: seq<string>, inRun: char -> bool)
    requires q <= |s| && optional != []
    requires !(WordAt(s, optional[0], q) && Run(s, q + |optional[0]|, inRun) > 0)
    ensures OptionalEnd(s, q, optional, inRun) == OptionalEnd(s, q, optional[1..], inRun)
    ensures MatchOptional(s, q, optional, inRun) == MatchOptional(s, q, optional[1..], inRun)
  {
    assert !(WordAt(s, optional[0], q) && Capture(s, q + |optional[0]|, inRun).Some?);
  }

  /** A match at `p` comes from the first keyword there after which the rest of the pattern matches. */
  lemma {:induction false} MatchAtKeyword(s: string, p: nat, keywords: seq<string>, optional: seq<string>,
                                          inRun: char -> bool)
    returns (i: nat, after: nat)
    requires p <= |s| && MatchAt(s, p, keywords, optional, inRun).Some?
    ensures i < |keywords| && WordAt(s, keywords[i], p)
    ensures after == KeywordEnd(p, keywords, i) && after <= |s|
    ensures MatchAt(s, p, keywords, optional, inRun) == MatchOptional(s, after, optional, inRun)
  {
    if WordAt(s, keywords[0], p) && MatchOptional(s, p + |keywords[0]|, optional, inRun).Some? {
      KeywordTaken(s, p, keywords, optional, inRun);
      i, after := 0, p + |keywords[0]|;
    } else {
      KeywordPassed(s, p, keywords, optional, inRun);
      var j;
      j, after := MatchAtKeyword(s, p, keywords[1..], optional, inRun);
      assert keywords[1..][j] == keywords[j + 1];
      i := j + 1;
    }
  }

  /** The first keyword is taken when it is present and the rest of the pattern matches after it. */
  lemma KeywordTaken(s: string, p: nat, keywords: seq<string>, optional: seq<string>, inRun: char -> bool)
    requires p <= |s| && keywords != []
    requires WordAt(s, keywords[0], p) && MatchOptional(s, p + |keywords[0]|, optional, inRun).Some?
    ensures MatchAt(s, p, keywords, optional, inRun) == MatchOptional(s, p + |keywords[0]|, optional, inRun)
  {
  }

  /** Otherwise the alternation goes on with the next keyword. */
  lemma KeywordPassed(s: string, p: nat, keywords: seq<string>, optional: seq<string>, inRun: char -> bool)
    requires p <= |s| && keywords != []
    requires !(WordAt(s, keywords[0], p) && MatchOptional(s, p + |keywords[0]|, optional, inRun).Some?)
    ensures MatchAt(s, p, keywords, optional, inRun) == MatchAt(s, p, keywords[1..], optional, inRun)
  {
  }

  /**
   * The pattern's match starts at `p`, the leftmost position where it matches,
   * with keyword `i`; the capture starts at `q`, after the keyword and the
   * optional word taken, and its run is not empty.
   */
  /** The position right after keyword `i` when it starts at `p`. */
  function KeywordEnd(p: nat, keywords: seq<string>, i: nat): nat
    requires i < |keywords|
  {
    p + |keywords[i]|
  }

  ghost predicate MatchedAt(s: string, keywords: seq<string>, optional: seq<string>, inRun: char -> bool,
                            p: nat, i: nat, q: nat)
  {
    && i < |keywords| && WordAt(s, keywords[i], p)
    && (forall p' :: 0 <= p' < p ==> MatchAt(s, p', keywords, optional, inRun).None?)
    && q == OptionalEnd(s, KeywordEnd(p, keywords, i), optional, inRun)
    && Run(s, q, inRun) > 0
  }

  /** The match of the whole pattern: leftmost position, keyword, and where the capture starts. */
  lemma KeywordMatch(s: string, keywords: seq<string>, optional: seq<string>, inRun: char -> bool)
    returns (p: nat, i: nat, q: nat)
    requires FirstMatch(s, 0, keywords, optional, inRun).Some?
    ensures q <= |s| && MatchedAt(s, keywords, optional, inRun, p, i, q)
    ensures FirstMatch(s, 0, keywords, optional, inRun) == Some(s[q..q + Run(s, q, inRun)])
  {
    p := FirstMatchLeftmost(s, 0, keywords, optional, inRun);
    var after;
    i, after := MatchAtKeyword(s, p, keywords, optional, inRun);
    MatchOptionalEnd(s, after, optional, inRun);
    q := OptionalEnd(s, after, optional, inRun);
    CaptureSome(s, q, inRun);
    MatchedAtIntro(s, keywords, optional, inRun, p, i, after, q);
  }

  lemma MatchedAtIntro(s: string, keywords: seq<string>, optional: seq<string>, inRun: char -> bool,
                       p: nat, i: nat, after: nat, q: nat)
    requires i < |keywords| && WordAt(s, keywords[i], p)
    requires after == KeywordEnd(p, keywords, i) && after <= |s|
    requires forall p' :: 0 <= p' < p ==> MatchAt(s, p', keywords, optional, inRun).None?
    requires q == OptionalEnd(s, after, optional, inRun) && Run(s, q, inRun) > 0
    ensures MatchedAt(s, keywords, optional, inRun, p, i, q)
  {
  }

  lemma CaptureSome(s: string, q: nat, inRun: char -> bool)
    requires q <= |s| && Capture(s, q, inRun).Some?
    ensures Run(s, q, inRun) > 0 && Capture(s, q, inRun) == Some(s[q..q + Run(s, q, inRun)])
  {
  }

  /** A match is a non-empty run of class characters. */
  lemma FirstMatchChars(s: string, keywords: seq<string>, optional: seq<string>, inRun: char -> bool)
    ensures FirstMatch(s, 0, keywords, optional, inRun).Some? ==>
      FirstMatch(s, 0, keywords, optional, inRun).value != []
      && forall c :: c in FirstMatch(s, 0, keywords, optional, inRun).value ==> inRun(c)
  {
    if FirstMatch(s, 0, keywords, optional, inRun).Some? {
      var p, i, q := KeywordMatch(s, keywords, optional, inRun);
      var n := Run(s, q, inRun);
      RunMaximal(s, q, inRun);
      forall c | c in s[q..q + n] ensures inRun(c) {
        var k :| 0 <= k < n && s[q..q + n][k] == c;
        assert s[q + k] == c;
      }
    }
  }

  /** `/weather (?:in |for )?([a-zA-Z\s]+)/i`, then the same after "temperature"; the trimmed capture, or New York. */
  function WeatherLocation(message: string): (location: string)
    ensures FirstMatch(message, 0, WeatherPattern, LocationOptional, IsLocationChar).None?
         && FirstMatch(message, 0, TemperaturePattern, LocationOptional, IsLocationChar).None?
         ==> location == DefaultLocation
  {
    var byWeather := FirstMatch(message, 0, WeatherPattern, LocationOptional, IsLocationChar);
    var byTemperature := FirstMatch(message, 0, TemperaturePattern, LocationOptional, IsLocationChar);
    if byWeather.Some? then Trim(byWeather.value)
    else if byTemperature.Some? then Trim(byTemperature.value)
    else DefaultLocation
  }

  /** A location read from the message holds only letters and white space. */
  lemma WeatherLocationChars(message: string)
    ensures WeatherLocation(message) == DefaultLocation
         || forall c :: c in WeatherLocation(message) ==> IsLocationChar(c)
  {
    var byWeather := FirstMatch(message, 0, WeatherPattern, LocationOptional, IsLocationChar);
    var byTemperature := FirstMatch(message, 0, TemperaturePattern, LocationOptional, IsLocationChar);
    if byWeather.Some? {
      FirstMatchChars(message, WeatherPattern, LocationOptional, IsLocationChar);
      TrimKeepsChars(byWeather.value, IsLocationChar);
    } else if byTemperature.Some? {
      FirstMatchChars(message, TemperaturePattern, LocationOptional, IsLocationChar);
      TrimKeepsChars(byTemperature.value, IsLocationChar);
    }
  }

  /** `/(?:search|find|look up) (?:for )?(.+)/i`: the trimmed rest of the line, or the whole message. */
  function SearchQuery(message: string): (query: string)
    ensures FirstMatch(message, 0, SearchPattern, SearchOptional, IsQueryChar).None? ==> query == message
  {
    var found := FirstMatch(message, 0, SearchPattern, SearchOptional, IsQueryChar);
    if found.Some? then Trim(found.value) else message
  }

  /** A query read by the pattern holds no line terminator. */
  lemma SearchQueryChars(message: string)
    ensures FirstMatch(message, 0, SearchPattern, SearchOptional, IsQueryChar).Some? ==>
      forall c :: c in SearchQuery(message) ==> IsQueryChar(c)
  {
    var found := FirstMatch(message, 0, SearchPattern, SearchOptional, IsQueryChar);
    if found.Some? {
      FirstMatchChars(message, SearchPattern, SearchOptional, IsQueryChar);
      TrimKeepsChars(found.value, IsQueryChar);
    }
  }

  /**
   * When "weather " matches, the location is the trimmed run of letters and white
   * space after the leftmost matching "weather " and the "in " or "for " it takes.
   */
  lemma LocationAfterWeather(message: string) returns (p: nat, q: nat)
    requires FirstMatch(message, 0, WeatherPattern, LocationOptional, IsLocationChar).Some?
    ensures MatchedAt(message, WeatherPattern, LocationOptional, IsLocationChar, p, 0, q)
    ensures WeatherLocation(message) == Trim(message[q..q + Run(message, q, IsLocationChar)])
  {
    var i;
    p, i, q := KeywordMatch(message, WeatherPattern, LocationOptional, IsLocationChar);
  }

  /** The "temperature " pattern decides the location only when "weather " matches nowhere. */
  lemma LocationAfterTemperature(message: string) returns (p: nat, q: nat)
    requires FirstMatch(message, 0, WeatherPattern, LocationOptional, IsLocationChar).None?
    requires FirstMatch(message, 0, TemperaturePattern, LocationOptional, IsLocationChar).Some?
    ensures MatchedAt(message, TemperaturePattern, LocationOptional, IsLocationChar, p, 0, q)
    ensures WeatherLocation(message) == Trim(message[q..q + Run(message, q, IsLocationChar)])
  {
    var i;
    p, i, q := KeywordMatch(message, TemperaturePattern, LocationOptional, IsLocationChar);
  }

  /**
   * When the search pattern matches, the query is the trimmed rest of the line after
   * the leftmost "search ", "find " or "look up " and the "for " it takes.
   */
  lemma QueryAfterKeyword(message: string) returns (p: nat, i: nat, q: nat)
    requires FirstMatch(message, 0, SearchPattern, SearchOptional, IsQueryChar).Some?
    ensures MatchedAt(message, SearchPattern, SearchOptional, IsQueryChar, p, i, q)
    ensures SearchQuery(message) == Trim(message[q..q + Run(message, q, IsQueryChar)])
  {
    p, i, q := KeywordMatch(message, SearchPattern, SearchOptional, IsQueryChar);
  }

  /** Trimming keeps a subsequence, so a property of every character survives it. */
  lemma TrimKeepsChars(s: string, ok: char -> bool)
    requires forall c :: c in s ==> ok(c)
    ensures forall c :: c in Trim(s) ==> ok(c)
  {
    forall c | c in Trim(s) ensures ok(c) {
      var k :| 0 <= k < |Trim(s)| && Trim(s)[k] == c;
      TrimIsInfix(s, k);
    }
  }

  lemma TrimIsInfix(s: string, k: nat)
    requires k < |Trim(s)|
    ensures Trim(s)[k] in s
  {
    var lead := LeadingSpace(s);
    var r := Trim(s);
    assert r == s[lead..|s| - TrailingSpace(s[lead..])] || r == [];
  }

  /** `detectToolUsage(message)`: the first tool, in order, one of whose keywords the lower-cased message contains. */
  function DetectToolUsage(message: string): Option<ToolCall> {
    var lower := ToLower(message);
    if ContainsAny(lower, TimeKeywords) then Some(TimeCall)
    else if ContainsAny(lower, WeatherKeywords) then Some(WeatherCall(WeatherLocation(message)))
    else if ContainsAny(lower, SearchKeywords) then Some(SearchCall(SearchQuery(message)))
    else if ContainsAny(lower, IpKeywords) then Some(IpCall)
    else None
  }

  /** Reference reading of the rules: the name of the first tool having a keyword in `lower`. */
  function FirstTool(lower: string, tools: seq<(string, seq<string>)>): Option<string> {
    if tools == [] then None
    else if exists w :: w in tools[0].1 && Contains(lower, w) then Some(tools[0].0)
    else FirstTool(lower, tools[1..])
  }

  // ---------------------------------------------------------------------------
  // Running a tool
  // ---------------------------------------------------------------------------

  /** The fields of `params` a tool reads; each absent or a string. */
  datatype ToolParams = ToolParams(location: Option<string>, query: Option<string>, q: Option<string>)

  const NoParams := ToolParams(None, None, None)

  function ParamsOf(call: ToolCall): ToolParams {
    match call
    case TimeCall => NoParams
    case WeatherCall(location) => NoParams.(location := Some(location))
    case SearchCall(query) => NoParams.(query := Some(query))
    case IpCall => NoParams
  }

  /** A JavaScript truthiness test on an optional string. */
  predicate Truthy(o: Option<string>) { o.Some? && o.value != "" }

  /**
   * What the tools read from outside: the clock, the search key and services, and
   * the IP lookup's outcome (its record, or the message of the error it rejects with).
   */
  datatype ToolEnv = ToolEnv(
    currentTime: string,
    today: string,
    serpKey: string,
    search: Search.SearchEnv,
    ipInfo: Result<Ip.IPInfo, string>)

  /** One numbered search result. */
  function ResultEntry(index: nat, r: Search.SearchResult): string {
    IntText(index + 1) + ". " + r.title + "\n" + r.snippet + "\nSource: " + r.url
  }

  function ResultEntries(results: seq<Search.SearchResult>): (entries: seq<string>)
    ensures |entries| == |results|
  {
    seq(|results|, i requires 0 <= i < |results| => ResultEntry(i, results[i]))
  }

  /** The reply to a search: the first three results, numbered, or a note that there were none. */
  function SearchReply(query: string, response: Search.SearchResponse): string {
    if |response.results| > 0 then
      var top := JsSlice(response.results, 0, 3);
      "Search results for \"" + query + "\":\n\n" + Join(ResultEntries(top), "\n\n")
    else
      "I searched for \"" + query + NoResultsTail
  }

  const NoResultsTail := "\" but didn't find specific results. You might want to try a different search term."

  function WeatherReply(location: string, today: string): string {
    var data := Weather.MockWeather(location, today);
    "Weather in " + location + ": " + data.description + ", " + IntText(data.temperature)
    + "°C. Humidity: " + IntText(data.humidity) + "%, Wind: " + NumberText(data.windSpeed) + " km/h"
  }

  /** `executeTool(toolName, params)`. */
  function ExecuteTool(toolName: string, params: ToolParams, env: ToolEnv): string {
    if toolName == "time" then "Current time: " + env.currentTime
    else if toolName == "weather" then
      var location := if Truthy(params.location) then params.location.value else DefaultLocation;
      WeatherReply(location, env.today)
    else if toolName == "search" then
      var query := if Truthy(params.query) then params.query.value
                   else if Truthy(params.q) then params.q.value else "";
      if query == "" then "Please provide a search query."
      else SearchReply(query, Search.SearchSpec(env.serpKey, query, Search.NoOptions, env.search))
    else if toolName == "ip" then
      match env.ipInfo
      case Ok(info) =>
        "Your IP information: " + info.ip + " (" + info.location.city + ", " + info.location.region + ", "
        + info.location.country + ")"
      case Err(message) => "Error executing ip: " + message
    else "Unknown tool: " + toolName
  }

  // ---------------------------------------------------------------------------
  // Replies
  // ---------------------------------------------------------------------------

  const OfferHelp := "I'm here to help! I can provide real-time information like current time, weather, search results, and more."
  const InviteQuestions := "Feel free to ask me about the current time, weather in any city, or search for information on any topic."
  const AskWish := "I'm your AI assistant with access to real-time tools. What would you like to know?"

  /** The canned answers picked at random when no tool applies and the hosted model did not answer. */
  const FallbackResponses: seq<string> := [OfferHelp, InviteQuestions, AskWish]

  /** The hosted model's answer: a failure of any kind, or the first choice's content if there is one. */
  datatype ModelOutcome = ModelFailed | ModelAnswered(content: Option<string>)

  datatype Reply = Reply(content: string, source: string, toolsUsed: Option<seq<string>>)

  /** `getAIResponse(message)`; `random` is the value `Math.random()` returned. */
  function GetAIResponse(message: string, env: ToolEnv, openAiKey: string, model: ModelOutcome, random: real): Reply
    requires 0.0 <= random < 1.0
  {
    match DetectToolUsage(message)
    case Some(call) =>
      Reply(ExecuteTool(ToolName(call), ParamsOf(call), env), "tool", Some([ToolName(call)]))
    case None =>
      if openAiKey != "" && model.ModelAnswered? then
        Reply(if Truthy(model.content) then model.content.value else "I received an empty response.", "openai", None)
      else
        Reply(FallbackResponses[(random * 3.0).Floor], "fallback", None)
  }

  /** The `message` field of the request body. */
  datatype MessageField = Absent | NotString | Text(value: string)

  /** The request body: one that cannot be parsed or destructured (with the error's message), or its `message`. */
  datatype Body = Unreadable(error: string) | Readable(message: MessageField)

  datatype ChatResponse = ChatResponse(
    status: nat, message: string, source: string, toolsUsed: Option<seq<string>>,
    error: Option<string>, timestamp: string)

  const InvalidMessage := "Please provide a valid message."
  const Apology := "I apologize, but I'm experiencing some technical difficulties right now. Please try again in a moment."

  /** `POST(request)`, with the reading of the clock as `timestamp`. */
  function Post(body: Body, env: ToolEnv, openAiKey: string, model: ModelOutcome, random: real, timestamp: string)
    : ChatResponse
    requires 0.0 <= random < 1.0
  {
    match body
    case Unreadable(e) => ChatResponse(500, Apology, "error", None, Some(e), timestamp)
    case Readable(field) =>
      if !field.Text? || field.value == "" then ChatResponse(400, InvalidMessage, "error", None, None, timestamp)
      else
        var reply := GetAIResponse(field.value, env, openAiKey, model, random);
        ChatResponse(200, reply.content, reply.source, Some(reply.toolsUsed.GetOr([])), None, timestamp)
  }

  // ---------------------------------------------------------------------------
  // Properties
  // ---------------------------------------------------------------------------

  lemma ContainsAnyGroup(lower: string, words: seq<string>)
    ensures ContainsAny(lower, words) <==> exists w :: w in words && Contains(lower, w)
  {
    ContainsAnyIffSome(lower, words);
  }

  /** The chain of tests picks the first tool, in the listed order, having a keyword in the lower-cased message. */
  lemma DetectPicksFirstTool(message: string)
    ensures DetectToolUsage(message).Some? <==> FirstTool(ToLower(message), ToolKeywords).Some?
    ensures DetectToolUsage(message).Some? ==>
      ToolName(DetectToolUsage(message).value) == FirstTool(ToLower(message), ToolKeywords).value
  {
    var lower := ToLower(message);
    ContainsAnyGroup(lower, TimeKeywords);
    ContainsAnyGroup(lower, WeatherKeywords);
    ContainsAnyGroup(lower, SearchKeywords);
    ContainsAnyGroup(lower, IpKeywords);
    var rest1 := [("weather", WeatherKeywords), ("search", SearchKeywords), ("ip", IpKeywords)];
    var rest2 := [("search", SearchKeywords), ("ip", IpKeywords)];
    var rest3 := [("ip", IpKeywords)];
    assert ToolKeywords[0] == ("time", TimeKeywords) && ToolKeywords[1..] == rest1;
    assert rest1[0] == ("weather", WeatherKeywords) && rest1[1..] == rest2;
    assert rest2[0] == ("search", SearchKeywords) && rest2[1..] == rest3;
    assert rest3[0] == ("ip", IpKeywords) && rest3[1..] == [];
    if ContainsAny(lower, TimeKeywords) {
      assert FirstTool(lower, ToolKeywords) == Some("time");
    } else {
      assert FirstTool(lower, ToolKeywords) == FirstTool(lower, rest1);
      if ContainsAny(lower, WeatherKeywords) {
        assert FirstTool(lower, rest1) == Some("weather");
      } else {
        assert FirstTool(lower, rest1) == FirstTool(lower, rest2);
        if ContainsAny(lower, SearchKeywords) {
          assert FirstTool(lower, rest2) == Some("search");
        } else {
          assert FirstTool(lower, rest2) == FirstTool(lower, rest3);
          if ContainsAny(lower, IpKeywords) {
            assert FirstTool(lower, rest3) == Some("ip");
          } else {
            assert FirstTool(lower, rest3) == FirstTool(lower, []) == None;
          }
        }
      }
    }
  }

  /** No tool is detected exactly when the lower-cased message contains none of the keywords. */
  lemma NoToolIffNoKeyword(message: string)
    ensures DetectToolUsage(message).None? <==>
      forall w :: w in TimeKeywords + WeatherKeywords + SearchKeywords + IpKeywords ==> !Contains(ToLower(message), w)
  {
    var lower := ToLower(message);
    ContainsAnyGroup(lower, TimeKeywords);
    ContainsAnyGroup(lower, WeatherKeywords);
    ContainsAnyGroup(lower, SearchKeywords);
    ContainsAnyGroup(lower, IpKeywords);
  }

  /** Any message containing "time" in any case goes to the clock, "sometimes" included. */
  lemma TimeWinsOnSubstring(message: string)
    requires Contains(ToLower(message), "time")
    ensures DetectToolUsage(message) == Some(TimeCall)
  {
  }

  lemma SometimesMeansTime()
    ensures DetectToolUsage("Sometimes") == Some(TimeCall)
  {
    assert ToLower("Sometimes") == "sometimes";
    assert OccursAt("sometimes", "time", 4);
    TimeWinsOnSubstring("Sometimes");
  }

  /** A weather keyword wins over a search keyword when no time keyword is present. */
  lemma WeatherBeatsSearch(message: string)
    requires !ContainsAny(ToLower(message), TimeKeywords)
    requires ContainsAny(ToLower(message), WeatherKeywords)
    ensures DetectToolUsage(message) == Some(WeatherCall(WeatherLocation(message)))
  {
  }

  /** The location follows "weather " and an optional "in "; it stops at the first non-letter. */
  lemma WeatherInCity()
    ensures WeatherLocation("weather in Oslo!") == "Oslo"
  {
    var s := "weather in Oslo!";
    OsloMatch();
    assert FirstMatch(s, 0, WeatherPattern, LocationOptional, IsLocationChar) == Some("Oslo");
    TrimOslo();
  }

  lemma OsloCapture()
    ensures Capture("weather in Oslo!", 11, IsLocationChar) == Some("Oslo")
  {
    var s := "weather in Oslo!";
    assert Run(s, 15, IsLocationChar) == 0;
    assert Run(s, 13, IsLocationChar) == 2;
    assert Run(s, 11, IsLocationChar) == 4;
    assert s[11..15] == "Oslo";
  }

  lemma OsloMatch()
    ensures MatchAt("weather in Oslo!", 0, WeatherPattern, LocationOptional, IsLocationChar) == Some("Oslo")
  {
    var s := "weather in Oslo!";
    assert WordAt(s, "weather ", 0) by { assert ToLower(s[0..8]) == "weather "; }
    assert WordAt(s, "in ", 8) by { assert ToLower(s[8..11]) == "in "; }
    OsloCapture();
    assert MatchOptional(s, 8, LocationOptional, IsLocationChar) == Some("Oslo");
  }

  lemma TrimOslo()
    ensures Trim("Oslo") == "Oslo"
  {
    assert LeadingSpace("Oslo") == 0;
    assert TrailingSpace("Oslo") == 0;
  }

  /** A pattern none of whose keywords is at `p` does not match there. */
  lemma {:induction false} NoKeywordNoMatch(s: string, p: nat, keywords: seq<string>, optional: seq<string>,
                                            inRun: char -> bool)
    requires p <= |s|
    requires forall k :: k in keywords ==> !WordAt(s, k, p)
    ensures MatchAt(s, p, keywords, optional, inRun).None?
  {
    if keywords != [] {
      assert keywords[0] in keywords;
      NoKeywordNoMatch(s, p, keywords[1..], optional, inRun);
    }
  }

  /** A string lacking one of a word's characters does not contain the word. */
  lemma MissingCharMeansAbsent(s: string, w: string, c: char)
    requires c in w && c !in s
    ensures !Contains(s, w)
  {
    var j :| 0 <= j < |w| && w[j] == c;
    forall i | 0 <= i <= |s| - |w| ensures !OccursAt(s, w, i) {
      assert s[i..i + |w|][j] == s[i + j];
    }
  }

  /** A message that only says "forecast" gets the default location. */
  lemma ForecastOnlyMeansNewYork()
    ensures DetectToolUsage("forecast") == Some(WeatherCall(DefaultLocation))
  {
    var s := "forecast";
    assert ToLower(s) == s;
    MissingCharMeansAbsent(s, "time", 'm');
    MissingCharMeansAbsent(s, "clock", 'k');
    MissingCharMeansAbsent(s, "what time", 'm');
    assert !ContainsAny(s, TimeKeywords);
    assert OccursAt(s, "forecast", 2 - 2);
    assert ContainsAny(s, WeatherKeywords);
    assert !WordAt(s, "weather ", 0) by { assert ToLower(s[0..8]) == s; }
    forall p | 0 <= p < |s|
      ensures MatchAt(s, p, WeatherPattern, LocationOptional, IsLocationChar).None?
      ensures MatchAt(s, p, TemperaturePattern, LocationOptional, IsLocationChar).None?
    {
      NoKeywordNoMatch(s, p, WeatherPattern, LocationOptional, IsLocationChar);
      NoKeywordNoMatch(s, p, TemperaturePattern, LocationOptional, IsLocationChar);
    }
    FirstMatchNone(s, 0, WeatherPattern, LocationOptional, IsLocationChar);
    FirstMatchNone(s, 0, TemperaturePattern, LocationOptional, IsLocationChar);
  }

  /** Without a match the search query is the untrimmed message. */
  lemma SearchQueryWithoutPattern(message: string)
    requires forall p :: 0 <= p < |message| ==>
      MatchAt(message, p, SearchPattern, SearchOptional, IsQueryChar).None?
    ensures SearchQuery(message) == message
  {
    FirstMatchNone(message, 0, SearchPattern, SearchOptional, IsQueryChar);
  }

  /** An empty or missing query is refused before any search. */
  lemma EmptyQueryRefused(params: ToolParams, env: ToolEnv)
    requires !Truthy(params.query) && !Truthy(params.q)
    ensures ExecuteTool("search", params, env) == "Please provide a search query."
  {
  }

  /** At most three results are shown, numbered from 1. */
  lemma AtMostThreeResults(results: seq<Search.SearchResult>)
    ensures |ResultEntries(JsSlice(results, 0, 3))| == if |results| < 3 then |results| else 3
    ensures forall i :: 0 <= i < |ResultEntries(JsSlice(results, 0, 3))| ==>
      ResultEntries(JsSlice(results, 0, 3))[i] == ResultEntry(i, results[i])
    ensures forall i :: 0 <= i < |ResultEntries(JsSlice(results, 0, 3))| ==>
      ResultEntries(JsSlice(results, 0, 3))[i][..|IntText(i + 1)| + 2] == IntText(i + 1) + ". "
  {
  }

  /** Weather without a location reports New York. */
  lemma WeatherDefaultsToNewYork(params: ToolParams, env: ToolEnv)
    requires !Truthy(params.location)
    ensures ExecuteTool("weather", params, env) == WeatherReply(DefaultLocation, env.today)
  {
  }

  /** Any other name is reported as unknown. */
  lemma UnknownToolNamed(name: string, params: ToolParams, env: ToolEnv)
    requires name !in ["time", "weather", "search", "ip"]
    ensures ExecuteTool(name, params, env) == "Unknown tool: " + name
  {
  }

  /**
   * With the IP answer produced by a lookup of the public address: the reply
   * names the address the lookup was about, and an `undefined` address is
   * reported as the lookup's `TypeError`.
   */
  lemma IpReplyFromLookup(params: ToolParams, env: ToolEnv, cache: map<string, Ip.CacheEntry>,
                          echo: seq<Ip.EchoOutcome>, geo: Ip.GeoOutcome, now: int, storedAt: int)
    requires Ip.CacheValid(cache)
    requires env.ipInfo == Ip.LookupInfo(cache, Ip.Target("", echo), geo, now, storedAt).result
    ensures Ip.Target("", echo).None? ==>
      ExecuteTool("ip", params, env) == "Error executing ip: " + Ip.UndefinedTargetError
    ensures Ip.Target("", echo).Some? ==>
      "Your IP information: " + Ip.Target("", echo).value + " (" <= ExecuteTool("ip", params, env)
  {
    if Ip.Target("", echo).Some? {
      Ip.LookupDescribesTarget(cache, Ip.Target("", echo).value, geo, now, storedAt);
    }
  }

  /** A detected tool answers with source "tool" and lists exactly that tool. */
  lemma ToolReply(message: string, env: ToolEnv, openAiKey: string, model: ModelOutcome, random: real)
    requires 0.0 <= random < 1.0
    requires DetectToolUsage(message).Some?
    ensures GetAIResponse(message, env, openAiKey, model, random).source == "tool"
    ensures GetAIResponse(message, env, openAiKey, model, random).toolsUsed
         == Some([ToolName(DetectToolUsage(message).value)])
  {
  }

  /**
   * Without a tool: the model answers only with a key and a usable reply; otherwise
   * the reply is one of the three fixed texts. Neither lists any tool.
   */
  lemma ReplyWithoutTool(message: string, env: ToolEnv, openAiKey: string, model: ModelOutcome, random: real)
    requires 0.0 <= random < 1.0
    requires DetectToolUsage(message).None?
    ensures GetAIResponse(message, env, openAiKey, model, random).toolsUsed.None?
    ensures GetAIResponse(message, env, openAiKey, model, random).source == "openai"
        <==> openAiKey != "" && model.ModelAnswered?
    ensures GetAIResponse(message, env, openAiKey, model, random).source != "openai" ==>
      GetAIResponse(message, env, openAiKey, model, random).source == "fallback"
      && GetAIResponse(message, env, openAiKey, model, random).content in FallbackResponses
  {
  }

  /** Every fallback text can be drawn: `Math.random()` in `[k/3, (k+1)/3)` picks the `k`-th. */
  lemma EachFallbackReachable(message: string, env: ToolEnv, openAiKey: string, model: ModelOutcome, k: nat)
    requires DetectToolUsage(message).None? && (openAiKey == "" || model.ModelFailed?)
    requires k < 3
    ensures 0.0 <= k as real / 3.0 < 1.0
    ensures GetAIResponse(message, env, openAiKey, model, k as real / 3.0) == Reply(FallbackResponses[k], "fallback", None)
  {
    assert (k as real / 3.0 * 3.0).Floor == k;
  }

  /** The endpoint answers 400 exactly when `message` is missing, empty or not a string. */
  lemma PostStatus(body: Body, env: ToolEnv, openAiKey: string, model: ModelOutcome, random: real, timestamp: string)
    requires 0.0 <= random < 1.0
    ensures body.Unreadable? <==> Post(body, env, openAiKey, model, random, timestamp).status == 500
    ensures body.Readable? ==>
      ((Post(body, env, openAiKey, model, random, timestamp).status == 400)
       <==> !(body.message.Text? && body.message.value != ""))
    ensures Post(body, env, openAiKey, model, random, timestamp).status in {200, 400, 500}
  {
  }

  /** A successful answer lists the tools used, and an empty list when none was. */
  lemma PostToolsUsed(message: string, env: ToolEnv, openAiKey: string, model: ModelOutcome, random: real,
                      timestamp: string)
    requires 0.0 <= random < 1.0 && message != ""
    ensures Post(Readable(Text(message)), env, openAiKey, model, random, timestamp).status == 200
    ensures Post(Readable(Text(message)), env, openAiKey, model, random, timestamp).toolsUsed
         == Some(if DetectToolUsage(message).Some? then [ToolName(DetectToolUsage(message).value)] else [])
  {
  }
}
