# Local AI assistant: tools and chat router in Dafny

This project models the logic of a local AI assistant's chat endpoint and of
the tools it calls:

- **Ip** (`app/tools/ip.ts`): validating IPv4/IPv6 addresses, classifying private
  IPv4 ranges and telling the address type apart. It also models the public-address
  lookup over three echo services and the geolocation lookup behind a process-wide
  cache with a five-minute time to live.
- **ChatRoute** (`app/app/api/chat/route.ts`): spotting which tool a message asks
  for and pulling a location or a query out of it with the route's regular
  expressions. It also models running the tool, and falling back to the hosted
  model and then to fixed replies. The `POST` handler's status codes are modelled too.
- **Search** (`app/tools/search.ts`): the degrading search. That is the paid API,
  then the instant-answer service, then the encyclopedia summary, then keyword-bucket
  guidance results. It also covers the suggestions, the mock response, and the news
  and image variants.
- **Weather** (`app/tools/weather.ts`): the key guard and the mapping of current
  conditions. It also models the forecast's grouping of 3-hour records by day, the
  per-day aggregation and truncation, and the constant mock record.
- **Embeddings** (`app/lib/embeddings.ts`): `chunkText` as written, a corrected
  `chunkText`, and the ranking done by `searchSimilarChunks`.
- **Time** (`app/tools/time.ts`): `addTime`'s unit table and arithmetic, and `formatTime`.
- **JsText** holds the JavaScript built-ins these rely on. These are `toLowerCase`,
  `includes`, `split` (with the separator search it rests on), `join`, `trim`, `slice`, `String(n)` and
  `encodeURIComponent`.
- **Wrappers** holds `Option` and `Result`.

Everything outside the program is a parameter. This covers network answers (as
outcome datatypes or functions from request to outcome), clock readings,
locale-formatted strings, `Math.random()` and the similarity of two vectors. The
static fields the tools update become classes: the IP cache (`Ip.IPTool`) and the
API keys (`Search.SearchTool`, `Weather.WeatherTool`). Their methods are proved
against the functions that specify them.

Where the code and its description disagree, the model follows the code.
- `detectToolUsage`'s keyword lists also contain "what time", "my ip" and
  "ip address". These never change the outcome, because "time" and "ip" are
  checked first and each is a substring of them.
- Any message containing "ip" anywhere ("recipe", "ship") goes to the IP tool. The
  model keeps this.
- `generateContextualResults` appends one result per matching category. The
  categories are not exclusive.
- `Object.entries` lists the day groups in insertion order. That is because
  `toDateString` keys are never array indices.

## Model

| member | source | states |
|---|---|---|
| JsText.ToLower | app/app/api/chat/route.ts:59 | lower-casing keeps the length and folds each ASCII capital to its small letter, leaving every other character alone |
| JsText.ContainsAnyIffSome | app/app/api/chat/route.ts:62 | a chain of `includes` tests joined by `\|\|` holds exactly when some word of the list is a substring |
| JsText.ContainsTransitive | app/app/api/chat/route.ts:62 | a string containing "what time" contains "time": a substring of a substring is a substring |
| JsText.IndexOfFrom | app/tools/search.ts:121 | the separator search inside `split` finds an occurrence at or after the start with none before it, and `None` only when there is none at all |
| JsText.IndexOfFinds | app/tools/search.ts:121 | the leftmost occurrence is the one the separator search returns |
| JsText.ContainsIffIndexOf | app/tools/search.ts:121 | `includes` holds exactly when the separator search finds something |
| JsText.Split | app/tools/ip.ts:204 | `split` with a non-empty separator always returns at least one piece |
| JsText.JoinSplit | app/tools/ip.ts:204 | joining the pieces of a split with the same separator gives back the string |
| JsText.SplitPiecesAvoidSeparator | app/tools/search.ts:121 | no piece of a split contains the separator |
| JsText.SplitJoinChar | app/tools/ip.ts:204 | splitting a join on a one-character separator that no part contains gives back the parts |
| JsText.LeadingSpace | app/app/api/chat/route.ts:70 | the count of leading white space is maximal: all counted characters are white space and the next is not |
| JsText.TrailingSpace | app/app/api/chat/route.ts:70 | the same for trailing white space |
| JsText.Trim | app/app/api/chat/route.ts:70 | `trim` gives an infix of the string that neither starts nor ends with white space |
| JsText.RelativeIndex | app/tools/search.ts:118 | a `slice` index is clamped to `0..length` |
| JsText.JsSlice | app/tools/search.ts:118 | `slice(start, end)` is never longer than the input or than `end - start`; from 0 it is a prefix, and in range it is `s[start..end]` |
| JsText.JsSliceFromZero | app/tools/weather.ts:107 | an entry of a slice from 0 is the input's entry at the same index |
| JsText.NatText | app/tools/weather.ts:70 | `String(n)` of a natural number is a non-empty string of digits |
| JsText.DecimalValueOfNatText | app/tools/ip.ts:204 | `Number` reads back what `String` wrote |
| JsText.HexChar | app/tools/search.ts:96 | each nibble becomes an upper-case hexadecimal digit |
| JsText.Utf8Bytes | app/tools/search.ts:96 | a code point encodes as one to four bytes |
| JsText.PercentBytes | app/tools/search.ts:96 | each byte becomes a `%XX` triple of three characters |
| JsText.EncodeUriComponent | app/tools/search.ts:96 | the result holds only unreserved characters, `%` and hexadecimal digits, and a string of unreserved characters is left as it is |
| Time.MakeDate | app/tools/time.ts:63 | `new Date(x)` is valid exactly when `x` lies within ±8.64e15 ms |
| Time.MultiplierTable | app/tools/time.ts:56-61 | minutes are 60000 ms, an hour is 60 minutes, a day 24 hours, a week 7 days (604800000 ms) |
| Time.AddZero | app/tools/time.ts:63 | `AddTime` (`addTime`) of 0 of any unit in the table gives back the current instant |
| Time.WeekIsSevenDays | app/tools/time.ts:56-63 | `AddTime` of a whole number `w` of weeks equals `AddTime` of `7w` days at the same instant |
| Time.AddWholeUnits | app/tools/time.ts:54-63 | a whole number `k` of a unit moves the clock by exactly `k` times the unit's multiplier |
| Time.AddTimeAdditive | app/tools/time.ts:63 | adding `a` units and then `b` units equals adding `a + b` units |
| Time.AddTimeDirection | app/tools/time.ts:63 | a negative amount never moves the clock forward and a positive one never moves it back |
| Time.FormatIgnoresFormat | app/tools/time.ts:41-48 | `FormatTime` (`formatTime(t, f)`) equals `formatTime(t)` for every `f` |
| Ip.OctetPatternIsByte | app/tools/ip.ts:190 | the octet alternation accepts exactly the 1-3 digit numerals with value at most 255, leading zeros allowed |
| Ip.IPv4PatternShape | app/tools/ip.ts:190 | the IPv4 pattern matches exactly four octets joined by dots |
| Ip.IPv6PatternHasNoShorthand | app/tools/ip.ts:193 | no string the IPv6 pattern accepts contains `::` |
| Ip.IPv6HasOneDotPart | app/tools/ip.ts:199-206 | a valid IPv6 address splits on '.' into one part and is not IPv4 |
| Ip.IsPrivateIP | app/tools/ip.ts:198-221 | `isPrivateIP` is true only for strings matching the IPv4 pattern |
| Ip.QuadBlocks | app/tools/ip.ts:207-217 | the octet tests are exactly membership in 10/8, 172.16/12, 192.168/16 and 127/8 |
| Ip.PrivateMeansPrivateBlock | app/tools/ip.ts:198-221 | on a valid IPv4 address, `isPrivateIP` holds exactly when the address lies in one of the four private blocks |
| Ip.NotPrivateUnlessIPv4 | app/tools/ip.ts:198-206 | strings that fail validation and valid IPv6 addresses are never private |
| Ip.DetectAgreesWithPattern | app/tools/ip.ts:133-138 | `DetectIPType` (`detectIPType`) says IPv6 for every valid IPv6 address and IPv4 for every valid IPv4 address |
| Ip.InfoFromGeo | app/tools/ip.ts:76-96 | the record built from an answer carries the target, its type and no security flags, with `isp` equal to `organization` |
| Ip.FallbackInfo | app/tools/ip.ts:108-129 | the fallback record carries the target, its type and no security flags |
| Ip.PublicIP | app/tools/ip.ts:28-55 | the address comes from the first service that answered: its `ip` when present and not empty, else its `origin`, and `None` (`undefined`) when the answer has neither. It is "Unknown" only when all failed |
| Ip.GetPublicIP | app/tools/ip.ts:37-53 | the service loop with its early return computes `PublicIP` |
| Ip.CacheHit | app/tools/ip.ts:61-64 | in `LookupInfo` (the body of `getIPInfo`) an entry younger than 300000 ms is returned as it is, the cache is unchanged and the service is not asked |
| Ip.CacheMiss | app/tools/ip.ts:61-130 | a missing entry, or one 300000 ms old or more, makes the lookup ask the service. An answer is stored under the target with the second clock reading, taken after the request; a failure returns the fallback record and leaves the cache alone |
| Ip.UndefinedTargetRejects | app/tools/ip.ts:57-131 | an `undefined` target asks the service, then rejects with the `TypeError` that `detectIPType(undefined)` throws, and leaves the cache alone |
| Ip.LookupDescribesTarget | app/tools/ip.ts:57-131 | every lookup of an address succeeds with a record for that address and keeps every cached record filed under its own address |
| Ip.RepeatedLookups | app/tools/ip.ts:61-102 | a successful lookup stores its record at its second clock reading `s1`; another lookup less than five minutes after `s1` returns the same record without a request, and one five minutes or more after `s1` asks again |
| Ip.IPTool.constructor | app/tools/ip.ts:25 | the cache starts empty |
| Ip.IPTool.GetIPInfo | app/tools/ip.ts:57-131 | the lookup for the given address, or for the public address when none is given, returns, stores and requests what `LookupInfo` prescribes for its two clock readings. An address gives a record describing it; an `undefined` public address rejects with the `TypeError` and leaves the cache alone |
| Ip.IPTool.ClearCache | app/tools/ip.ts:239-241 | the cache is empty afterwards, so every next lookup asks the service |
| Ip.ValidExample | app/tools/ip.ts:188-196 | `ValidateIP` (`validateIP`) accepts "192.168.1.1" |
| Ip.OutOfRangeExample | app/tools/ip.ts:188-196 | "999.1.1.1" is rejected |
| Ip.ThreeOctetExample | app/tools/ip.ts:188-196 | "192.168.1" is rejected |
| Ip.PrivateExample | app/tools/ip.ts:208 | "10.0.0.5" is private |
| Ip.PublicExample | app/tools/ip.ts:198-221 | "8.8.8.8" is not private |
| Ip.OutsideBlockExample | app/tools/ip.ts:211 | "172.32.0.1" is not private |
| Search.Param | app/tools/search.ts:47-54 | a request parameter is present exactly when some pair has its name, and its value is that of the first such pair |
| Search.OrganicResults | app/tools/search.ts:65-71 | the mapping succeeds exactly when every link parses, and then maps each organic result, in order, to title, link, snippet, host name and date |
| Search.TopicResults | app/tools/search.ts:117-129 | at most one result per related topic |
| Search.BuildInstantResults | app/tools/search.ts:104-129 | the pushes build the abstract's result followed by those of the usable topics among the first five |
| Search.MatchedResults | app/tools/search.ts:202-244 | at most one result per category |
| Search.PushIfMatches | app/tools/search.ts:203-211 | one test appends the category's result exactly when the lower-cased query matches |
| Search.PushMatchingCategories | app/tools/search.ts:202-244 | the four tests leave one result per matching category, in the order time, weather, programming, news |
| Search.GenerateContextualResults | app/tools/search.ts:198-258 | the array built is the matched results, or the guidance result alone |
| Search.SearchWithFallback | app/tools/search.ts:86-196 | the free cascade returns the instant answers if any, else the summary if it has an extract, else the contextual results with suggestions |
| Search.SearchTool.constructor | app/tools/search.ts:19 | the key starts unset |
| Search.SearchTool.SetApiKey | app/tools/search.ts:22-24 | the key is stored |
| Search.SearchTool.Search | app/tools/search.ts:26-39 | the method computes `SearchSpec`: with a key the paid tier (`SerpTier`) is asked and its errors fall back to the free cascade; without a key the cascade is used |
| Search.SearchTool.SearchNews | app/tools/search.ts:293-300 | a news search is the search for the query followed by " news" with the engine forced to Google |
| Search.SearchTool.SearchImages | app/tools/search.ts:302-309 | an image search is the search for the query followed by " images" with the engine forced to Google |
| Search.QueryEchoed | app/tools/search.ts:26-196 | every response's `query` is the query asked |
| Search.FallbackNeverEmpty | app/tools/search.ts:86-196 | the free cascade `FallbackSearch` never returns an empty list, and its total is the list's length |
| Search.NoKeyMeansFallback | app/tools/search.ts:34-38 | without a key the search is the free cascade and returns at least one result |
| Search.PaidErrorFallsThrough | app/tools/search.ts:58-83 | in `SerpTier`, a failed paid request or a result link that is not a URL sends the search down the free cascade |
| Search.PaidAnswerWithoutResults | app/tools/search.ts:65-79 | a paid answer without `organic_results` is returned with an empty list, with the related searches as suggestions |
| Search.PaidTotal | app/tools/search.ts:65-76 | the paid tier reports the service's non-zero total, else the list's length, and keeps one result per organic result |
| Search.SerpParamsQueryAndKey | app/tools/search.ts:47-49 | the paid request carries the query and the key |
| Search.SerpParamsDefaults | app/tools/search.ts:50-51 | the engine defaults to google and the count to 10, also when the count is 0 |
| Search.SerpParamsOptional | app/tools/search.ts:52-53 | `location` and `hl` are sent exactly when given and not empty |
| Search.TopicResultsMembers | app/tools/search.ts:117-129 | topic results come only from topics with both text and URL, and every such topic gives one |
| Search.TopicTitle | app/tools/search.ts:121 | a topic's title is the prefix of its text before the first " - ", and the whole text when the text has no " - " |
| Search.InstantResultsBound | app/tools/search.ts:104-131 | the instant tier gives at most 1 + 5 results, all from DuckDuckGo, and none exactly when there is no abstract and no usable topic among the first five |
| Search.MatchedResultsSound | app/tools/search.ts:202-244 | a category's result is listed only if that category matches |
| Search.MatchedResultsFromCategories | app/tools/search.ts:202-244 | every listed result is the result of a category of the list that matches |
| Search.MatchedResultsComplete | app/tools/search.ts:202-244 | every matching category's result is listed |
| Search.MatchedResultsNone | app/tools/search.ts:202-244 | with no category matching, nothing is listed |
| Search.ContextualNonEmpty | app/tools/search.ts:198-258 | the contextual tier gives between one and four results |
| Search.CategoriesListed | app/tools/search.ts:202-255 | over any list of categories, a category's result is present exactly when it matches |
| Search.GuidanceListed | app/tools/search.ts:246-255 | over any list of categories, the guidance result is present exactly when none matches, and then alone |
| Search.ContextualCategories | app/tools/search.ts:198-258 | `ContextualResults` holds a category's result exactly when the lower-cased query names it |
| Search.ContextualGuidance | app/tools/search.ts:246-255 | the guidance result appears exactly when no category matches, and then it is the only result |
| Search.SuggestionsMatchMock | app/tools/search.ts:260-271 | `SearchSuggestions` are "q tutorial", "q guide", "q examples", the same as the mock's |
| Search.MockShape | app/tools/search.ts:273-291 | `MockSearchResults` echoes the query and holds one result with a total of one |
| Search.NewsRequest | app/tools/search.ts:293-300 | a news search sends `q` = query + " news" and `engine` = google |
| Weather.DayKeys | app/tools/weather.ts:83-89 | every record's day is among the grouped days |
| Weather.DayKeysHaveItems | app/tools/weather.ts:83-91 | every grouped day has at least one record |
| Weather.DayItemsMembers | app/tools/weather.ts:83-89 | a day's group holds only input records of that day |
| Weather.DayKeysSound | app/tools/weather.ts:83-89 | every grouped day is the day of some record |
| Weather.MaxTemp | app/tools/weather.ts:93 | the day's maximum is one of its temperatures and no temperature exceeds it |
| Weather.MinTemp | app/tools/weather.ts:94 | the day's minimum is one of its temperatures and none is below it |
| Weather.DailySummaries | app/tools/weather.ts:91-105 | one summary per grouped day |
| Weather.GroupByDay | app/tools/weather.ts:80-89 | the first loop lists the days in first-seen order and files under each exactly that day's records, in input order |
| Weather.SummarizeDays | app/tools/weather.ts:91-105 | the second loop yields the summaries of the groups in key order |
| Weather.WeatherTool.constructor | app/tools/weather.ts:23 | the key starts unset |
| Weather.WeatherTool.SetApiKey | app/tools/weather.ts:26-28 | the key is stored |
| Weather.WeatherTool.GetCurrentWeather | app/tools/weather.ts:30-61 | without a key it fails before any request. Otherwise it makes exactly one request and maps the answer, or reports the failure or the status text |
| Weather.WeatherTool.GetForecast | app/tools/weather.ts:63-112 | without a key it fails before any request. Otherwise it requests `days * 8` records and returns `ForecastResult`: the first `days` daily summaries, or the failure |
| Weather.LowAtMostHigh | app/tools/weather.ts:92-94 | in every day's summary built by `Aggregate`, the rounded low is at most the rounded high |
| Weather.ForecastLength | app/tools/weather.ts:107 | at most `days` entries, and exactly `min(days, number of days)` |
| Weather.DefaultForecastLength | app/tools/weather.ts:63-107 | with the default `days = 5` the forecast has at most five days, and five when the records span that many |
| Weather.DayKeysDistinct | app/tools/weather.ts:85-88 | each day is grouped once |
| Weather.DayKeysFirstSeenOrder | app/tools/weather.ts:83-91 | groups come in the order of each day's first record |
| Weather.ItemInItsGroup | app/tools/weather.ts:83-89 | every record lies in the group of its own day, and that day is grouped |
| Weather.GroupsPartitionItems | app/tools/weather.ts:83-89 | over distinct days covering all records, the groups together hold each record exactly once |
| Weather.DayGroupsPartition | app/tools/weather.ts:83-91 | the groups of the grouped days hold every input record exactly once |
| Weather.DescriptionOfFirstRecord | app/tools/weather.ts:95 | a day's group starts with the first input record of that day |
| Weather.RainSumOfDry | app/tools/weather.ts:96 | a day without any rain volume sums to 0 |
| Weather.DryRecordAddsNothing | app/tools/weather.ts:96 | a record without a rain volume adds 0 to its day's total, wherever it falls in the day |
| Weather.RainSumOfVolumes | app/tools/weather.ts:96 | a day's rain total is the left-to-right sum of the rain volumes present, so each missing volume counts as 0 |
| Weather.MockIgnoresLocation | app/tools/weather.ts:115-134 | `MockWeather` copies the location and nothing else depends on it; its one-day forecast has low at most high |
| Weather.CurrentMapping | app/tools/weather.ts:46-56 | in the record `CurrentResult` builds from an answer (`CurrentFrom`), the temperature is rounded to within a half degree, visibility is in km, and the UV index and forecast are empty |
| Embeddings.ChunkTextAsWritten | app/lib/embeddings.ts:36-49 | the loop pushes the pieces at the successive starts. With positive overlap and a non-empty text it never leaves by its own test; with no overlap and positive chunks it stops after `PassesNeeded` passes with chunks concatenating to the text |
| Embeddings.PiecesIndex | app/lib/embeddings.ts:40-46 | in `Pieces`, the `k`-th chunk the loop pushes is the slice taken at the `k`-th start |
| Embeddings.NeverExits | app/lib/embeddings.ts:43-45 | with positive overlap and a non-empty text, `start` stays below the length on every pass |
| Embeddings.StuckAtTail | app/lib/embeddings.ts:41-45 | with `0 < overlap <= chunkSize`, once a chunk reaches the end, every later pass starts at `length - overlap` and pushes the same tail |
| Embeddings.DefaultsRepeatShortText | app/lib/embeddings.ts:36-46 | with the default sizes "abc" is pushed whole again and again |
| Embeddings.NoOverlapStart | app/lib/embeddings.ts:41-43 | without overlap, pass `k` starts at `k * chunkSize`, capped at the length |
| Embeddings.NoOverlapPasses | app/lib/embeddings.ts:40-45 | without overlap the loop body runs exactly `ceil(length / chunkSize)` times |
| Embeddings.NoOverlapPiece | app/lib/embeddings.ts:41-42 | without overlap, pass `k` pushes the `k`-th block of `chunkSize` characters |
| Embeddings.NoOverlapPrefix | app/lib/embeddings.ts:40-46 | without overlap, the chunks so far written together are the text up to the next start |
| Embeddings.NoOverlapCovers | app/lib/embeddings.ts:40-46 | without overlap the chunks written together are the text, and all but the last are `chunkSize` long |
| Embeddings.ChunksFrom | app/lib/embeddings.ts:40-46 | the corrected loop yields no chunk exactly when it starts at the end |
| Embeddings.ChunkLengths | app/lib/embeddings.ts:41-42 | no corrected chunk is empty or longer than `chunkSize`, and all but the last are exactly `chunkSize` |
| Embeddings.ChunkText | app/lib/embeddings.ts:36-49 | the corrected loop terminates and produces `ChunksFrom(text, 0)` |
| Embeddings.ReassembleChunks | app/lib/embeddings.ts:40-46 | dropping each later chunk's `overlap` leading characters and concatenating gives back the text |
| Embeddings.ChunksOverlap | app/lib/embeddings.ts:41-43 | consecutive chunks share exactly `overlap` characters |
| Embeddings.SortKeepsEntries | app/lib/embeddings.ts:77-78 | `SortByScore` is a permutation |
| Embeddings.SortIsSorted | app/lib/embeddings.ts:77-78 | sorting puts higher scores first |
| Embeddings.SortIsStable | app/lib/embeddings.ts:77-78 | entries with equal scores keep their input order |
| Embeddings.SortLength | app/lib/embeddings.ts:77-78 | sorting keeps the length |
| Embeddings.TopCount | app/lib/embeddings.ts:77-79 | `SearchSimilarChunks` returns `min(limit, n)` entries |
| Embeddings.DefaultLimitTopFive | app/lib/embeddings.ts:67-79 | with the default `limit = 5` at most five entries are returned, and five when there are that many chunks |
| Embeddings.TopSorted | app/lib/embeddings.ts:77-79 | the result's scores do not increase |
| Embeddings.TopFromInput | app/lib/embeddings.ts:72-79 | each entry is an input chunk's content with that chunk's `Similarity` to the query |
| Embeddings.TopBeatsRest | app/lib/embeddings.ts:77-79 | no entry left out scores higher than an entry kept |
| ChatRoute.RunMaximal | app/app/api/chat/route.ts:68 | a greedy character-class run is maximal: every character in it belongs to the class and the next does not |
| ChatRoute.MatchOptionalEnd | app/app/api/chat/route.ts:68 | `(?:in \|for )?(class+)` captures the longest run from where the optional group leaves off: after the first optional word present that a class character follows, or in place |
| ChatRoute.MatchAtKeyword | app/app/api/chat/route.ts:68 | a match at one position comes from a keyword present there, and is the match of the rest of the pattern right after that keyword |
| ChatRoute.KeywordMatch | app/app/api/chat/route.ts:68-77 | a successful `match` starts at the leftmost matching position with a keyword present there; its capture starts after the keyword and the optional word taken, and is the non-empty maximal run there |
| ChatRoute.FirstMatchChars | app/app/api/chat/route.ts:68-70 | `match` captures a non-empty run of class characters |
| ChatRoute.FirstMatchNone | app/app/api/chat/route.ts:68-70 | `match` fails exactly when the pattern matches at no position |
| ChatRoute.FirstMatchLeftmost | app/app/api/chat/route.ts:68-70 | a successful `match` is the capture at the leftmost position where the pattern matches |
| ChatRoute.WeatherLocation | app/app/api/chat/route.ts:68-70 | with neither pattern matching the location is "New York" |
| ChatRoute.WeatherLocationChars | app/app/api/chat/route.ts:68-70 | a location read from the message holds only letters and white space |
| ChatRoute.LocationAfterWeather | app/app/api/chat/route.ts:68-70 | when "weather " matches, the location is the trimmed maximal run of letters and white space after the leftmost "weather " and the "in " or "for " it takes |
| ChatRoute.LocationAfterTemperature | app/app/api/chat/route.ts:68-70 | "temperature " decides the location only when "weather " matches nowhere, and then the same way |
| ChatRoute.SearchQuery | app/app/api/chat/route.ts:76-77 | without a match the query is the whole message |
| ChatRoute.SearchQueryChars | app/app/api/chat/route.ts:76-77 | a query read by the pattern holds no line terminator |
| ChatRoute.QueryAfterKeyword | app/app/api/chat/route.ts:76-77 | when the pattern matches, the query is the trimmed rest of the line after the leftmost "search ", "find " or "look up " and the "for " it takes |
| ChatRoute.TrimKeepsChars | app/app/api/chat/route.ts:70 | trimming keeps only characters of the string, so the capture's class survives it |
| ChatRoute.DetectPicksFirstTool | app/app/api/chat/route.ts:58-87 | `DetectToolUsage` picks the first tool, in the order time, weather, search, ip, one of whose keywords the lower-cased message contains |
| ChatRoute.NoToolIffNoKeyword | app/app/api/chat/route.ts:58-87 | no tool is detected exactly when the lower-cased message contains none of the keywords |
| ChatRoute.TimeWinsOnSubstring | app/app/api/chat/route.ts:62-64 | any message containing "time" in any case goes to the clock |
| ChatRoute.SometimesMeansTime | app/app/api/chat/route.ts:62-64 | "Sometimes" goes to the clock |
| ChatRoute.WeatherBeatsSearch | app/app/api/chat/route.ts:66-72 | without a time keyword, a weather keyword wins over any search keyword |
| ChatRoute.WeatherInCity | app/app/api/chat/route.ts:68-70 | "weather in Oslo!" gives the location "Oslo" |
| ChatRoute.ForecastOnlyMeansNewYork | app/app/api/chat/route.ts:66-72 | a message that only says "forecast" asks for the weather in New York |
| ChatRoute.SearchQueryWithoutPattern | app/app/api/chat/route.ts:76-77 | when the search pattern matches nowhere the query is the untrimmed message |
| ChatRoute.ResultEntries | app/app/api/chat/route.ts:36-38 | one formatted entry per result |
| ChatRoute.EmptyQueryRefused | app/app/api/chat/route.ts:30-31 | a missing or empty query is refused with "Please provide a search query." |
| ChatRoute.AtMostThreeResults | app/app/api/chat/route.ts:35-38 | at most three results are shown, each the corresponding result numbered from 1 |
| ChatRoute.WeatherDefaultsToNewYork | app/app/api/chat/route.ts:25-27 | weather without a location reports New York |
| ChatRoute.UnknownToolNamed | app/app/api/chat/route.ts:49-50 | in `ExecuteTool`, any other tool name yields "Unknown tool: " and the name |
| ChatRoute.IpReplyFromLookup | app/app/api/chat/route.ts:45-55 | with the IP answer of a lookup of the public address, the reply starts with that address; an `undefined` address is reported as "Error executing ip: " and the `TypeError`'s message |
| ChatRoute.ToolReply | app/app/api/chat/route.ts:93-100 | in `GetAIResponse`, a detected tool answers with source "tool" and lists exactly that tool |
| ChatRoute.ReplyWithoutTool | app/app/api/chat/route.ts:102-135 | without a tool no tool is listed. The source is "openai" exactly when a key is set and the model answered; otherwise it is "fallback" with one of the three fixed texts |
| ChatRoute.EachFallbackReachable | app/app/api/chat/route.ts:130-135 | each of the three fixed texts is drawn for some value of `Math.random()` |
| ChatRoute.PostStatus | app/app/api/chat/route.ts:138-169 | `Post` answers 500 exactly for an unreadable body, 400 exactly when `message` is missing, empty or not a string, and otherwise 200 |
| ChatRoute.PostToolsUsed | app/app/api/chat/route.ts:150-157 | a valid message is answered with 200, listing the detected tool, or an empty list |

## Left out

- Network requests, their timeouts and `AbortSignal` are not modelled. Every service answer is an input outcome, and a timeout is a failure.
- The clock is an input: `Date.now()`, `new Date().toISOString()`, `toLocaleString`, `toDateString` and the `Intl` time zone. `TimeTool.getCurrentTime` and `getTimezone` only read the clock and the locale, so they are left out; the chat route's time reply takes the formatted reading as an input.
- `Math.random()` is an input `random` in `[0, 1)`. Likewise, the mock embedding vector of `generateEmbedding` is not modelled.
- `generateEmbedding`, the `EmbeddingService` constructor and its `baseUrl` are left out. They are a request to the embedding server and nothing else.
- `cosineSimilarity` keeps only its length check; the cosine itself (floating point and `sqrt`) is an input function. For the same reason the sort comparator is taken on exact reals, without NaN scores.
- `Math.round`, `Math.max`, `Math.min` and the rain sum are on exact reals; floating-point rounding is not modelled.
- Time.AddTime: computes `now + amount * multiplier` on exact reals, not doubles. A fractional amount can round differently in the source (a third of a week), which is why `Time.WeekIsSevenDays` is stated for whole numbers of weeks only.
- `toLowerCase` and the regular expressions' `i` flag fold ASCII letters only. Characters whose lower-case form differs outside ASCII (for example "İ") are left unchanged.
- Strings are sequences of Unicode scalar values. Lone UTF-16 surrogates cannot occur, so `encodeURIComponent` never throws and the search's final mock tier is never reached; `Search.MockSearchResults` is modelled on its own.
- The inner `catch` of `executeTool`'s search branch (app/app/api/chat/route.ts:41-43) is not modelled: with service answers as outcomes, `search` never rejects. The outer `catch` (52-55) is modelled for the IP branch, whose lookup rejects on an `undefined` address; the time and weather branches cannot throw.
- The IP tool's answer in `executeTool` is an input `Result`. `ChatRoute.IpReplyFromLookup` ties it to `Ip.LookupInfo`, and `Ip.IPTool.GetIPInfo` models how it is produced.
- The hosted model's request is an outcome `ModelOutcome`. A failed request, a non-ok status and a body without `choices` are all `ModelFailed`.
- `GET` of the chat route returns a constant status object with a clock reading. Nothing about it depends on input.
- `getLocalIPs`, `checkIPReachability` and `getNetworkInfo` (app/tools/ip.ts:140-237) are left out. They read the operating system's interfaces or probe the network.
- Concurrent calls racing on the IP cache are not modelled. Each lookup runs to completion.
- Weather.WeatherTool.GetCurrentWeather: every answer carries all the fields read. An answer missing one throws a TypeError in the source, which is not modelled.
- Embeddings.ChunkTextAsWritten: runs at most `budget` passes, because the loop as written need not terminate. The contract states that with positive overlap it is still running when the budget is used up, whatever the budget.
- Embeddings.StuckAtTail: requires `0 < overlap <= chunkSize`. With a larger overlap, `start` moves backwards after the tail chunk instead of staying at `length - overlap`.
- Embeddings.ChunkText: requires `0 <= overlap < chunkSize`. With a larger overlap the corrected loop could still step backwards.
- Weather.ForecastLength: requires `days >= 0`. A negative `days` makes `slice` count from the end.
- Embeddings.TopCount: requires `limit >= 0`. A negative `limit` makes `slice` drop entries from the end instead.

## Findings

| source | as written | input that shows it | evidently intended | confidence | as-written member | corrected member |
|---|---|---|---|---|---|---|
| app/lib/embeddings.ts:40-46 | after the chunk that reaches the end of the text, `start = end - overlap` is below the length, so the `break` never fires and the same tail chunk is pushed forever | `chunkText("abc")` with the defaults 1000 and 200: `start` goes 0, -197, -197, … and "abc" is pushed on every pass | stop after pushing the chunk that ends at the end of the text | not executed | Embeddings.ChunkTextAsWritten | Embeddings.ChunkText |
