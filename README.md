# LinkedIn research assistant: a verified model of its core

The LinkedIn research assistant is a small web application. It lists companies that
resemble a seller's ideal customers ("ICP-similar") or that are likely heavy cloud
spenders ("high-fit"). It can scrape LinkedIn company and people profiles through the
BrightData dataset API, and it generates rotating LinkedIn and Google search links for
discovering new companies and decision makers.

This project models the sequential logic of that application in Dafny and proves what
it promises:

- **Scraping service** (`server/brightdata.js`):
  - the 30-minute in-memory scrape cache with lazy eviction (a `class` over a `map`);
  - the order-independent cache key, which sorts the caller's URL array in place;
  - the cache-only-on-success scrape flows;
  - the `waitForResults` polling loop against an injected provider and clock;
  - the pure normaliser of provider records (region, size class, narrative texts, ICP
    label);
  - the slug and search-URL builders.
- **Static API handlers** (`server/routes.js`), as pure functions over the company list
  and the query parameters:
  - the ICP-similar and high-fit listings: case-insensitive search and equality filters,
    a shuffle, and `(page-1)*limit` slicing with `total` counted before slicing;
  - the stats counts;
  - the 400 answers for missing parameters;
  - the generated search and verification URLs.
- **Browser helpers** (`public/app.js`):
  - the Fisher–Yates `shuffle`, as a loop over an array copy;
  - the static-mode filter and stats, which differ from the server's (see
    `ClientHelpers.ClientFilterDiffers`);
  - `truncate`;
  - the `Map`-based de-duplication by company name.
- **Discovery engine** (`server/discovery.js`):
  - `pickRandom`;
  - the LinkedIn and Google discovery-link loops, the Google loop with its `used` set;
  - the decision-maker links;
  - the four themed suggestion sections.

Every random choice is a parameter:

- `Math.random() > 0.5` becomes a recorded draw;
- `pickRandom`'s shuffle becomes a list of picks;
- the Fisher–Yates index becomes a function `rnd`.

Each proof holds for every possible outcome. The HTTP provider is an oracle that gives
the trigger reply, each poll's reply and latency, and the snapshot reply. The clock is
the entry time plus the latencies and the 3-second sleeps.

JavaScript semantics are written out where the code depends on them:

- `||` defaulting on `""` and `0`;
- `parseInt` with `NaN`;
- `Array.prototype.slice` with negative and `NaN` bounds;
- `String.prototype.replace` with a string pattern, which replaces only the first
  occurrence;
- `encodeURIComponent` as UTF-8 percent-encoding;
- the default `sort()` order.

Modules:

- `Wrappers`: `Option` and `Result`.
- `JsText`: the JavaScript string and number built-ins the code uses.
- `StringOrder`: the default string sort.
- `SeqUtils`: `filter`, distinctness and the random-comparator shuffle.
- `Records`: provider records, the company record, and the company list by category.
- `ScrapeCache`: the cache.
- `Polling`: `waitForResults`.
- `Scraper`: `scrapeCompanies` and `scrapeProfiles`.
- `Normalizer`: `transformCompanyResults` and its helpers.
- `LinkedInUrls`: the URL builders.
- `Routes`: the Express handlers.
- `ClientHelpers`: `public/app.js`.
- `Discovery`: `server/discovery.js`.

## Model

| member | source | states |
|---|---|---|
| ScrapeCache.Lookup | server/brightdata.js:22-27 | `getCached` yields a value exactly when the key is present and was stored less than 30 minutes ago, and the value is the stored data |
| ScrapeCache.AfterRead | server/brightdata.js:22-27 | a read leaves the map as it was on a hit; on a miss the key is gone afterwards; every other key keeps its entry |
| ScrapeCache.Cache.constructor | server/brightdata.js:19 | the cache starts empty |
| ScrapeCache.Cache.Get | server/brightdata.js:22-27 | the answer is the lookup on the old map, and the new map is the old one after the lazy eviction |
| ScrapeCache.Cache.Set | server/brightdata.js:29-31 | the key now maps to the data stamped with the current time; nothing else changes |
| ScrapeCache.ReadAfterWrite | server/brightdata.js:19-31 | after storing d at t, a read at t' gives d iff t' - t < 30 min; otherwise the key is absent afterwards and the other keys are untouched |
| ScrapeCache.SetThenGet | server/brightdata.js:19-31 | the same round trip through the cache object's methods, including the state it leaves behind |
| Polling.CheckTime | server/brightdata.js:76-86 | the clock at the k-th loop check is at least k sleeps of 3 s after entry |
| Polling.WaitForResults | server/brightdata.js:75-89 | the outcome satisfies `Polling.Polled` for the job, the entry clock and the budget; with no budget the provider is never asked; the number of polls fits the budget; the clock never runs backwards |
| Polling.PolledIsDeterministic | server/brightdata.js:75-89 | `Polling.Polled` fixes the report: two reports over the same job, clock and budget have the same number of polls and the same outcome |
| Polling.SettledOrSpent | server/brightdata.js:76-88 | every report ends the loop: the last poll said `ready` or `failed` or failed itself, or the budget is spent at the next loop check |
| StringOrder.LexLeReflexive | server/brightdata.js:94 | the default string order is reflexive |
| StringOrder.LexLeTotal | server/brightdata.js:94 | the default string order is total |
| StringOrder.LexLeAntisymmetric | server/brightdata.js:94 | the default string order is antisymmetric |
| StringOrder.LexLeTransitive | server/brightdata.js:94 | the default string order is transitive |
| StringOrder.Insert | server/brightdata.js:94 | inserting into a sorted list keeps it sorted and adds exactly that element |
| StringOrder.SortStrings | server/brightdata.js:94 | `sort()` yields a sorted permutation of its input |
| StringOrder.SortedTail | server/brightdata.js:94 | the tail of a sorted list is sorted |
| StringOrder.SortedHeadIsLeast | server/brightdata.js:94 | the head of a sorted list is below every element |
| StringOrder.MultisetTail | server/brightdata.js:94 | the tail's elements are the list's elements less the head |
| StringOrder.SortedSameHead | server/brightdata.js:94 | two sorted permutations of each other share their head, and their tails are permutations of each other |
| StringOrder.SortedUnique | server/brightdata.js:94 | two sorted permutations of each other are equal |
| StringOrder.SortStringsPermutationInvariant | server/brightdata.js:94 | sorting gives the same list for any order of the same URLs |
| StringOrder.SwapAdjacent | server/brightdata.js:94 | one step of the in-place sort swaps two neighbours and keeps the elements |
| StringOrder.SortInPlace | server/brightdata.js:94 | `companyUrls.sort()` rearranges the caller's array into the sorted permutation of its old contents |
| Scraper.CacheKeyIgnoresOrder | server/brightdata.js:94 | the cache key does not depend on the order of the URLs |
| Scraper.CompanyAndProfileKeysDiffer | server/brightdata.js:94-109 | a `companies:` key never equals a `profiles:` key |
| Scraper.CacheKey | server/brightdata.js:94 | the key starts with its prefix; with no URLs it is the prefix alone |
| Records.AllCompanies | server/routes.js:28 | exactly the records of the category, each as often as in the list |
| Scraper.Scrape | server/brightdata.js:93-119 | sorts the caller's array. A hit returns the cached payload, with no provider call and no change. A miss triggers; if the trigger fails it fails with that status when the call returns; otherwise its outcome and poll count are exactly what `waitForResults` reports for the returned snapshot, entered when the trigger call returned, with the 2-minute budget. Only a success is stored, stamped with the return time; a failure leaves only the lazy eviction behind |
| Scraper.ScrapeCompanies | server/brightdata.js:93-104 | `Scraper.Scrape` with the company dataset and the `companies:` key, including the tie of the outcome to the provider's snapshot |
| Scraper.ScrapeProfiles | server/brightdata.js:108-119 | `Scraper.Scrape` with the people dataset and the `profiles:` key, including the tie of the outcome to the provider's snapshot |
| Scraper.RepeatedCompanyRequest | server/brightdata.js:93-104 | a second request for the same URLs in any order, within 30 min of a successful scrape with a truthy payload, returns the same payload without triggering; after 30 min, or after a failure, it triggers again |
| Scraper.SecondRequest | server/brightdata.js:95-102 | over the cache effects of two requests under one key: a fresh truthy stored payload answers the second request; after 30 minutes, or after a failure, the second request triggers |
| LinkedInUrls.HyphenateChars | server/brightdata.js:127 | replacing runs of white space by hyphens leaves only slug characters |
| LinkedInUrls.HyphenateSpaces | server/brightdata.js:127 | no white space is left, the text does not grow, and every character is a hyphen or comes from the input |
| LinkedInUrls.CollapseShape | server/brightdata.js:128 | collapsing hyphen runs leaves no double hyphen, keeps a leading hyphen iff there was one, and introduces no new characters |
| LinkedInUrls.CollapseHyphens | server/brightdata.js:128 | the text does not grow and every character comes from the input |
| LinkedInUrls.Slug | server/brightdata.js:125-128 | a slug contains only `a-z`, `0-9` and `-`, with no two hyphens in a row |
| LinkedInUrls.SlugKeepsLettersAndDigits | server/brightdata.js:125-128 | apart from its hyphens, the slug is exactly the lower-cased name's letters `a-z` and digits, in order |
| LinkedInUrls.HyphenateKeeps | server/brightdata.js:127 | replacing white-space runs keeps every character that is neither white space nor a hyphen, in order |
| LinkedInUrls.CollapseKeeps | server/brightdata.js:128 | collapsing hyphen runs keeps every character that is not a hyphen, in order |
| LinkedInUrls.SlugIdempotent | server/brightdata.js:125-128 | slugging a slug changes nothing |
| LinkedInUrls.LowerOfSlug | server/brightdata.js:125 | lower-casing a slug changes nothing |
| LinkedInUrls.FilterAll | server/brightdata.js:126 | stripping characters from a slug removes none |
| LinkedInUrls.HyphenateWithoutSpaces | server/brightdata.js:127 | replacing white space changes nothing in a string without white space |
| LinkedInUrls.CollapseWithoutDoubles | server/brightdata.js:128 | collapsing hyphens changes nothing in a string without double hyphens |
| LinkedInUrls.BuildCompanyUrls | server/brightdata.js:123-131 | one URL per name, in order, each the company-page prefix followed by that name's slug |
| LinkedInUrls.Row | server/brightdata.js:138-142 | definition, stated pointwise: one URL per region, in region order. It is the reference that `PushGrid` and `GridLayout` are proved against |
| LinkedInUrls.RowSnoc | server/brightdata.js:138-142 | one more inner-loop step appends the URL for the next region |
| LinkedInUrls.GridIndex | server/brightdata.js:137-143 | the index `i*w+j` of an industry-major grid lies inside the grid |
| LinkedInUrls.GridLayout | server/brightdata.js:135-145 | the grid holds `industries x regions` URLs in industry-major order; entry `i*w+j` is the URL for industry i and region j |
| LinkedInUrls.PushGrid | server/brightdata.js:136-144 | the nested push loops build exactly that grid |
| LinkedInUrls.BuildLinkedInSearchUrls | server/brightdata.js:135-145 | `buildLinkedInSearchUrls` builds the grid for the given regions, or for `['India']` when none are given |
| Normalizer.OrElse | server/brightdata.js:153-169 | `a \|\| b` on strings yields `a` unless it is empty, and is empty only when both are |
| Normalizer.ContainsAny | server/brightdata.js:183 | `some(c => hq.includes(c))` holds iff some listed name occurs in the text |
| Normalizer.DetectRegion | server/brightdata.js:177-185 | `India` iff the lower-cased country code is `in` or the lower-cased headquarters (or first location) contains one of the 15 cities; `Global` otherwise |
| Normalizer.BengaluruAndBangalore | server/brightdata.js:178-183 | any record whose headquarters (or first location) text, lower-cased, contains `bengaluru` or `bangalore` is in India |
| Normalizer.RegionFallbacks | server/brightdata.js:178-183 | the place text is the headquarters, else the first location, else empty; a listed city in the first location of a record without headquarters makes it Indian, and so does any two-letter country code that lower-cases to `in` |
| Normalizer.EstimateComplexity | server/brightdata.js:187-192 | the size class is one of `High`, `Medium` and `Low` |
| Normalizer.ComplexityOfCount | server/brightdata.js:187-192 | for a decimal employee count n: `High` iff n > 5000, `Medium` iff 1000 < n <= 5000, else `Low` |
| Normalizer.UnparsableIsLow | server/brightdata.js:188-191 | an employee count whose text, after white space and a sign, does not start with a decimal digit (`N/A`, `abc`, `about 500`) parses to NaN and is `Low` |
| Normalizer.MissingCountIsLow | server/brightdata.js:188-191 | a missing employee count defaults to `'0'` and is `Low` |
| Normalizer.WhyFitMentions | server/brightdata.js:203-212 | the why-fit text is the default sentence iff no sentence applies, and it contains every sentence that applies |
| Normalizer.WhyFitParts | server/brightdata.js:204-210 | at most two sentences: at most one size sentence, then perhaps the technology sentence |
| Normalizer.BuildWhyFit | server/brightdata.js:203-212 | with no sentence the text is the default; otherwise it starts with the first sentence |
| Normalizer.WhyFitFollowsComplexity | server/brightdata.js:204-210 | the large-enterprise sentence appears iff the size class is `High`, the mid-size one iff it is `Medium`, and the technology sentence iff some specialty mentions a technology keyword |
| Normalizer.CloudSignalsMention | server/brightdata.js:194-201 | the signal text is the default iff the record has no employee count, followers, specialties or industry (both directions); otherwise it mentions each one present |
| Normalizer.CloudSignalParts | server/brightdata.js:194-199 | at most four facts, and none exactly when the record has no employee count, followers, specialties or industry |
| Normalizer.BuildCloudSignals | server/brightdata.js:194-201 | with no fact the text is the default; otherwise it starts with the first fact |
| Normalizer.FirstSignalIsNotDefault | server/brightdata.js:194-201 | a record with any fact never gets the default text, because no first fact can begin it |
| Normalizer.EmployeesPartNotDefault | server/brightdata.js:196 | the employee-count fact never begins the default text |
| Normalizer.FollowersPartNotDefault | server/brightdata.js:197 | the followers fact starts with a digit, so it never begins the default text |
| Normalizer.LabelledPartNotDefault | server/brightdata.js:198-199 | the specialties and industry facts never begin the default text |
| Normalizer.MatchIcp | server/brightdata.js:214-221 | the first matching keyword group names the reference customer, in the order food, media, drinks, commerce; with no match the label is `Analyze similarity` |
| Normalizer.FirstGroupWins | server/brightdata.js:214-221 | for any industry matching two keyword groups, the customer is never the later group's and is that of the earlier group or one before it |
| Normalizer.Normalize | server/brightdata.js:152-173 | each record gets the given category, `verified` false, `scrapedLive` true, the two `Research needed` fields, the region, size class, signals and why-fit texts from the helpers, and the ICP label only for `icp-similar`. Each `\|\|` chain is stated case by case: name, then company name, then `Unknown`; industry, then the joined industries, then `Unknown`; headquarters, then first location, then `Unknown`; LinkedIn count, then company size, then `Unknown`; LinkedIn id, then id. URL, about, followers and specialties are copied |
| Normalizer.TransformCompanyResults | server/brightdata.js:149-174 | a non-array gives `[]`; otherwise one normalised record per input record, in input order, with category `high-fit` by default |
| Normalizer.TransformedShape | server/brightdata.js:149-174 | every output record has the category, flags, company default and ICP label described above |
| Normalizer.TransformConcat | server/brightdata.js:152-173 | normalising two batches together equals normalising them one after the other |
| JsText.Lower | server/routes.js:31 | `toLowerCase` keeps the length and lower-cases each character |
| JsText.IncludesAt | server/routes.js:33-36 | `includes` holds iff the needle occurs at some position |
| JsText.IncludesMiddle | server/routes.js:13 | a text built around a part includes that part |
| JsText.IncludesParts | server/routes.js:15 | a text built from two parts includes both |
| JsText.IndexOf | server/discovery.js:116-120 | the first occurrence of a pattern, or none when it never occurs |
| JsText.ReplaceFirst | server/discovery.js:116-120 | `replace` with a string pattern replaces only the first occurrence, and changes nothing when the pattern is absent |
| JsText.Join | server/brightdata.js:198-211 | `join` of no parts is empty; otherwise the text starts with the first part |
| JsText.JoinNonEmpty | server/brightdata.js:200 | a join with a non-empty part is non-empty, so `\|\|` keeps it |
| JsText.JoinIncludesPart | server/brightdata.js:198-200 | a joined text includes each of its parts |
| JsText.HexValue | server/brightdata.js:188 | a hexadecimal digit has a value below 16 |
| JsText.LeadingCount | server/brightdata.js:188 | `parseInt` reads the longest run of leading digits |
| JsText.ParseInt | server/routes.js:47 | without a `0x` prefix, `parseInt` gives a number iff a decimal digit follows the white space and sign; with one, iff a hexadecimal digit follows the prefix; otherwise NaN |
| JsText.ParseIntDigits | server/routes.js:47 | a decimal numeral parses to its value |
| JsText.DigitRun | server/brightdata.js:188 | a string of decimal digits is read in full |
| JsText.NatToString | server/brightdata.js:197 | a number prints as a non-empty decimal numeral of the same value |
| JsText.RelativeIndex | server/routes.js:48 | a `slice` bound, negative or NaN, is clamped into the list |
| JsText.Slice | server/routes.js:48 | a slice is never longer than the list |
| JsText.SliceNonNegative | server/routes.js:48 | a slice with non-negative bounds is the window between the clamped bounds |
| JsText.PercentByte | server/brightdata.js:140 | a byte encodes as `%` followed by two hexadecimal digits |
| JsText.Utf8 | server/brightdata.js:140 | a character has one to four UTF-8 bytes |
| JsText.PercentBytes | server/brightdata.js:140 | percent-encoding bytes gives three characters per byte, all `%` or hexadecimal digits |
| JsText.EncodeUriComponent | server/brightdata.js:140 | `encodeURIComponent` output contains only unreserved characters and `%`, is at least as long as its input, and is empty iff the input is |
| SeqUtils.Filter | server/routes.js:32-42 | `filter` keeps exactly the elements that pass, each as often as in the input, and nothing else |
| SeqUtils.FilterConcat | server/discovery.js:156 | filtering a concatenation concatenates the filtered parts |
| SeqUtils.DisjointFiltersBound | server/routes.js:109-110 | two filters that never both hold count at most the list's length together |
| SeqUtils.DistinctMultiplicity | server/discovery.js:138 | in a list without repeats every element occurs at most once |
| SeqUtils.RepeatedMultiplicity | server/discovery.js:138 | an element at two positions occurs at least twice |
| SeqUtils.DistinctSubMultiset | server/discovery.js:46-47 | part of a list without repeats has no repeats |
| SeqUtils.Scramble | server/routes.js:45 | the random-comparator sort yields a permutation of its input |
| SeqUtils.ScrambleMembers | server/routes.js:45 | the shuffled list holds exactly the input's elements |
| Routes.NumberParam | server/routes.js:27-53 | an absent `page` or `limit` takes its default, an empty one is NaN, and a decimal numeral is its value |
| Routes.IcpMatches | server/routes.js:28-42 | the ICP-similar matches are exactly the `icp-similar` records where a non-empty search is a case-insensitive substring of company, industry, ICP label or HQ, and a non-empty region matches case-insensitively, each as often as in the list |
| Routes.HighFitMatches | server/routes.js:62-80 | the same for high-fit records, searching cloud providers instead of the ICP label, with a case-insensitive complexity filter as well |
| Routes.Paginate | server/routes.js:45-51 | `total` is the number of matches; the page holds only matches |
| Routes.SliceIsSubMultiset | server/routes.js:48 | a slice holds only elements of the list |
| Routes.IcpSimilar | server/routes.js:26-57 | `/api/icp-similar` counts all the matches, and every listed company is a selected record of the list |
| Routes.HighFit | server/routes.js:60-94 | `/api/high-fit` counts all the matches, and every listed company is a selected record of the list |
| Routes.SelectedMembers | server/routes.js:45-48 | a page drawn from the matches contains only selected records of the list |
| Routes.CountSelected | server/routes.js:51 | the number of matches is the number of records that pass the filters |
| Routes.TotalIsSelectedCount | server/routes.js:47-51 | `total` is the filtered count, independent of `page`, `limit` and the shuffle |
| Routes.PageWindow | server/routes.js:48 | a non-negative slice of length `limit` from `start` is the contiguous window there, cut at the end of the list |
| Routes.PaginateSlice | server/routes.js:47-48 | the page is the slice of the shuffled matches from `(page-1)*limit` to `start+limit` |
| Routes.ListingPage | server/routes.js:45-48 | for page >= 1 and limit >= 0 the page is the contiguous run of the shuffled matches from `(page-1)*limit`, of length min(limit, max(0, total - start)); a page past the end is empty |
| Routes.DefaultPaging | server/routes.js:27 | without `page` and `limit` the first 50 shuffled matches are listed |
| Routes.NonPositivePage | server/routes.js:47-48 | `page` below 1 is not rejected. `page=0` gives an empty page; a negative page with a positive limit gives the window `[total + (page-1)*limit, total + page*limit)` from the tail of the shuffled matches, clamped at 0 |
| Routes.SliceFromEnd | server/routes.js:48 | `slice` with an end bound of 0 is empty; with negative bounds both count back from the end of the list |
| Routes.ApiStats | server/routes.js:105-125 | each count is the number of records passing its condition (category `icp-similar`, category `high-fit`, region `India`, region `Global`, complexity `High`, verified); `totalCompanies` and `targetRoles` are the list lengths; the two categories and the two regions never exceed the total |
| Routes.CountStats | server/routes.js:106-125 | the total and role counts are the list lengths; the India and Global counts never add up to more than the total, and the high-complexity and verified counts are each at most the total |
| Routes.PeopleUrl | server/routes.js:12-13 | the people-search URL carries the encoded role query and the encoded company facet |
| Routes.FallbackUrl | server/routes.js:15 | the Google fallback carries the encoded company and the encoded roles |
| Routes.LinkedInSearch | server/routes.js:8-23 | a missing company is a 400; otherwise the answer echoes the company and the target roles and carries both URLs, using the default role lists when no role is given |
| Routes.Search | server/routes.js:97-102 | a missing `q` is a 400; otherwise the results are the search's and `total` is their count |
| Routes.GoogleQuery | server/routes.js:135-139 | each verification link is a Google search |
| Routes.GoogleVerify | server/routes.js:128-143 | a missing company is a 400; otherwise every link is a Google search and the LinkedIn one carries the encoded company |
| ClientHelpers.Shuffle | public/app.js:13-20 | the Fisher–Yates loop on a copy returns a permutation of its input |
| ClientHelpers.SwapPreservesMultiset | public/app.js:17 | a swap keeps the elements |
| ClientHelpers.StaticMatches | public/app.js:23-33 | the static matches are exactly the records of the category that pass each non-empty filter, each as often as in the list |
| ClientHelpers.GetCompaniesStatic | public/app.js:22-35 | `getCompaniesStatic` returns a permutation of exactly those matches |
| ClientHelpers.ClientFilterDiffers | public/app.js:26-33 | unlike the server, the browser does not search HQ and compares the region case-sensitively: a record the server finds for `pune` or `india` is not found in the browser |
| ClientHelpers.GetStatsStatic | public/app.js:37-49 | each count is the number of records of the browser's copy passing the same condition as the server's, with the same bounds |
| ClientHelpers.StaticStatsMatchServer | public/app.js:37-49 | when the server's list by category is the category filter, the browser's stats equal the server's |
| ClientHelpers.Truncate | public/app.js:390 | an empty input gives `''`; a longer input gives its first n characters plus `...` (length n+3); a short input is returned unchanged; a negative n counts from the end, as `slice` does, and one past the start gives `...` alone |
| ClientHelpers.Names | public/app.js:372 | definition, stated pointwise: the names of a list, in order. It is the reference map for `DedupOrder` and `DedupByName` |
| ClientHelpers.FindName | public/app.js:372 | finds a record with a given name, or establishes that none has it |
| ClientHelpers.UpsertNames | public/app.js:372 | a `Map.set` keeps the key order and appends a new name at the end |
| ClientHelpers.Upsert | public/app.js:372 | `Map.set` puts the record in the list; an existing name keeps its place and the length, a new one adds one entry; entries with other names are untouched |
| ClientHelpers.Dedup | public/app.js:372 | the de-duplicated list is no longer than the input, holds only input records, and always holds the last record |
| ClientHelpers.DedupOrder | public/app.js:372 | the de-duplicated names are the list's names in first-occurrence order |
| ClientHelpers.FirstOccurrencesShape | public/app.js:372 | the first occurrences contain no repeats and exactly the names of the list |
| ClientHelpers.DedupKeepsLast | public/app.js:372 | each kept record is the last record in the list with its name |
| ClientHelpers.DedupByName | public/app.js:372 | one record per distinct name, covering every record's name, in first-occurrence order, each the last with its name |
| Discovery.IndustryListsDisjoint | server/discovery.js:8-20 | no industry is both an ICP industry and a cloud industry |
| Discovery.DmTitlesDistinct | server/discovery.js:37-42 | the decision-maker titles have no repeats |
| Discovery.PickOne | server/discovery.js:45-47 | with n = 1, `pickRandom` returns an element of a non-empty array, and nothing for an empty one |
| Discovery.PickOneReaches | server/discovery.js:45-47 | every element of the array can be picked |
| Discovery.PickSome | server/discovery.js:45-47 | with n >= 0, `pickRandom` returns min(n, length) elements drawn from the array |
| Discovery.SlicePrefix | server/discovery.js:47 | `slice(0, n)` is a prefix of the list |
| Discovery.PickOneIsHead | server/discovery.js:46-47 | the single pick is the head of the shuffled array, and picking one equals picking a list of one |
| Discovery.PickSomeMembers | server/discovery.js:45-47 | every picked element is in the array |
| Discovery.PickSomeDistinct | server/discovery.js:45-47 | picks from an array without repeats have no repeats |
| Discovery.LinkedInLink.Text | server/discovery.js:71 | the label mentions the industry and the region |
| Discovery.LinkedInLink.Url | server/discovery.js:66-67 | the URL is the company-search prefix followed by exactly the encoded `industry region` keywords and `&origin=SWITCH_SEARCH_VERTICAL`, so it contains that encoding |
| Discovery.GoogleLink.Text | server/discovery.js:127 | the label is the query |
| Discovery.GoogleLink.Url | server/discovery.js:128 | the URL is a Google search for exactly the encoded query |
| Discovery.LinkedInLinkFor | server/discovery.js:61-75 | a link keeps the drawn industry and region, and is `icp-discovery` iff the ICP list was drawn, else `cloud-discovery` |
| Discovery.LinkedInLinkLists | server/discovery.js:61-75 | a link is `icp-discovery` iff its industry is an ICP industry, `cloud-discovery` iff it is a cloud industry, and its region is a listed region |
| Discovery.LinkedInLinksLayout | server/discovery.js:57-79 | the loop's list has one link per iteration, the i-th made from the i-th draw |
| Discovery.GenerateLinkedInDiscoveryLinks | server/discovery.js:57-79 | the loop returns exactly `count` links (none for a non-positive count), the i-th made from the i-th draw |
| Discovery.TemplateKinds | server/discovery.js:85-106 | no query template has a LinkedIn-discovery type |
| Discovery.SubstituteAbsent | server/discovery.js:116-120 | a template without placeholders is its own query |
| Discovery.SubstituteFills | server/discovery.js:116-120 | in a template whose only placeholder is one of the replaced patterns, with values that bring no brace, the chain of `replace` calls puts that value in the placeholder's place and keeps the rest |
| Discovery.QueryForFills | server/discovery.js:116-120 | a template with one of the four placeholders and no other brace becomes its text with the draw's value in the placeholder's place |
| Discovery.AbsentWithoutBrace | server/discovery.js:116-120 | a placeholder is never found in a text without a brace |
| Discovery.ReplacePlaceholder | server/discovery.js:117 | replacing the only placeholder puts the value in its place |
| Discovery.ReplaceOther | server/discovery.js:118-120 | replacing a placeholder that is absent changes nothing |
| Discovery.GoogleLinkFor | server/discovery.js:110-130 | definition of one iteration's candidate link: the substituted query and the template's type. Its properties are in `SubstituteFills`, `QueryForFills` and `GoogleLinkKind` |
| Discovery.GoogleLinkKind | server/discovery.js:110-130 | a Google link's type is one of icp, cloud, dm and signal |
| Discovery.Queries | server/discovery.js:122-129 | definition, stated pointwise: the queries of a list of links, in order. It is the reference map for `KeepNewQueriesShape` and `GoogleLinksShape` |
| Discovery.DrawnGoogleLinks | server/discovery.js:109-121 | one candidate link per iteration |
| Discovery.DrawnGoogleLinksAt | server/discovery.js:109-121 | the k-th candidate is made from the k-th draw |
| Discovery.KeepNewQueriesShape | server/discovery.js:122-130 | skipping queries already used keeps at most all candidates, with no repeated query, losing no query, and adding no link |
| Discovery.KeepNewQueries | server/discovery.js:122-123 | never more links than candidates, and the first candidate is always kept |
| Discovery.GoogleLinksShape | server/discovery.js:108-133 | the loop returns at most `count` links with pairwise different queries, and every drawn query appears among them |
| Discovery.RepeatedQueryAddsNothing | server/discovery.js:122 | an iteration whose query was already used adds nothing, and is not retried |
| Discovery.GenerateGoogleDiscoveryLinks | server/discovery.js:82-134 | the loop with its `used` set returns the de-duplicated links of the first `count` draws |
| Discovery.DmLink.LinkedIn | server/discovery.js:141 | the people-search URL carries the encoded title and company |
| Discovery.DmLink.Google | server/discovery.js:142 | the Google URL carries the encoded title and company |
| Discovery.DmLinks | server/discovery.js:139-143 | definition, stated pointwise: one link per title, in order, all for the company. Its properties are in `DmLinksDistinct`, `DmLinksListed` and `DmLinksTitles` |
| Discovery.GenerateDmSearchLinks | server/discovery.js:137-144 | exactly 5 links with pairwise different titles |
| Discovery.PickedDmLinks | server/discovery.js:138-143 | n links for the company from n picks of a list without repeats, with pairwise different titles |
| Discovery.DmLinksDistinct | server/discovery.js:139-143 | different titles give links with different titles |
| Discovery.DmLinksListed | server/discovery.js:137-144 | every decision-maker link is for the company, and its title is one of the listed titles |
| Discovery.PickedDmLinksListed | server/discovery.js:138-143 | every picked link is for the company and has a title from the list |
| Discovery.DmLinksTitles | server/discovery.js:139-143 | every link made from titles is for the company and has one of those titles |
| Discovery.WrapLinkedIn | server/discovery.js:156 | definition, stated pointwise: the LinkedIn links enter the sections in order. It is the reference for `SectionsOrder` |
| Discovery.WrapGoogle | server/discovery.js:156 | definition, stated pointwise: the Google links enter the sections in order. It is the reference for `WrappedGoogle` and `SectionsOrder` |
| Discovery.Take | server/discovery.js:156-171 | `slice(0, n)` is a prefix of at most n links |
| Discovery.LinkedInFirstSplit | server/discovery.js:156 | a prefix of LinkedIn links followed by Google links has the LinkedIn links first |
| Discovery.Sections | server/discovery.js:152-173 | four sections, themed ICP, cloud, decision makers and signals; each holds exactly the first min(cap, n) of the n links of its theme, with caps 8, 8, 6 and 6 (LinkedIn links, then Google links, for the first two) |
| Discovery.TakeFiltered | server/discovery.js:156-171 | a section holds only links that pass its filter and come from its source lists |
| Discovery.WrappedGoogle | server/discovery.js:166-171 | the decision-maker and signal sections draw only on Google links |
| Discovery.SectionsContents | server/discovery.js:152-173 | each section holds only links of its own types; the last two hold only Google links |
| Discovery.SectionsOrder | server/discovery.js:156-161 | in the two discovery sections, LinkedIn links precede Google links |
| Discovery.FilteredOrder | server/discovery.js:156-161 | filtering LinkedIn-then-Google links and taking a prefix keeps the LinkedIn links first |
| Discovery.GenerateDiscoverySuggestions | server/discovery.js:147-180 | the fixed note, and the sections built from 8 LinkedIn links and the de-duplicated links of 12 Google draws |

## Left out

- HTTP calls (`fetch` in `triggerScrape`, `checkProgress`, `getSnapshot`, `checkAPIStatus`) are not modelled as code. The provider is an oracle giving each reply, and `checkAPIStatus` is left out.
- The clock: `Date.now()` and the 3-second `setTimeout` become the entry time plus the injected poll latencies and `SleepMs`.
- `scrapedAt` and `generatedAt` timestamps are left out. So are `dotenv`, `process.env`, the API key and `BASE_URL`.
- `server/companies-data.js` is not part of this model. The company list and `TARGET_ROLES` are parameters. `getAllCompanies(category)` is taken to be the category filter of `COMPANIES`, the same filter the browser applies. `searchCompanies` is a function parameter of `Routes.Search`.
- The contents of `ICP_REFERENCE` and the `icp_reference` / `icpReference` response fields are left out, because they are opaque data from the same missing file.
- `server/database.js` (SQLite set-up) and `server/index.js` (Express wiring) are left out.
- In `public/app.js`, everything that touches the DOM or the network is left out: rendering, toasts, badges, `esc`, `window.open` and the `fetch` paths.
- No live/static merge exists in this code, so none is modelled. Nothing sets the `source` field the browser reads.
- `toLowerCase` is ASCII lower-casing, so Unicode case mapping is left out. Regular expressions are written as the substring tests they amount to on the given patterns.
- Default `sort()` compares code points rather than UTF-16 code units. The two orders differ only between astral characters and characters from U+E000 to U+FFFF.
- `String.prototype.replace` treats `$` patterns in the replacement specially; these are not modelled. The inserted industry, technology and region names contain no `$`.
- `parseInt` results are unbounded integers, so numbers beyond 2^53 are not rounded. Query parameters are single strings; Express array parameters are left out.
- The random-comparator sort (`sort(() => Math.random() - 0.5)`) is `SeqUtils.Scramble` over supplied picks. Only the permutation is claimed, not any distribution.
- LinkedInUrls.Slug: where the slug's hyphens stand is fixed only by the definitions of `HyphenateSpaces` and `CollapseHyphens`. The lemmas state the letters and digits, in order, and that no two hyphens are adjacent; they do not state where each hyphen stands relative to the name's white-space runs and hyphens.
- `Discovery.PickOne`: `pickRandom` on an empty array yields `undefined`; the model yields `None`. No caller passes an empty array.
- Discovery draws carry the outcome of each `pickRandom` and `Math.random()` call (`LinkedInDraw`, `GoogleDraw`). `Discovery.LinkedInLinkLists` and `Discovery.GoogleLinkKind` say what a well-formed draw guarantees, and `Discovery.PickOneReaches` shows every array element is a possible pick.
- The default counts (10 and 15) of the two discovery generators are left out. `count` is always a parameter, and `generateDiscoverySuggestions` passes 8 and 12.
- `CLOUD_KEYWORDS` and `randomInt` are never used by the code and are left out.
- `Discovery.LinkedInLink.Text`: states that the label contains the industry and the region, not its exact wording `<industry> companies in <region>`.
- `Routes.GoogleVerify`: the nested `links` object is flattened into one record. The contract states that every link is a Google search; it does not state the exact words added to each query.
- `Routes.IcpSimilar`, `Routes.HighFit`: the `page` and `limit` fields echo the parsed parameters; the page contents are stated by `Routes.ListingPage`.
- `Scraper.RepeatedCompanyRequest`: requires that no cache entry was stored after the first request's time. The source's clock is monotonic, so this always holds there.
- Overlapping requests are not modelled. `Scraper.Scrape`, `Scraper.ScrapeCompanies` and `Scraper.ScrapeProfiles` run as one step, but the source awaits between `getCached` (`server/brightdata.js:95`) and `setCache` (line 102). Two overlapping requests for the same URLs can both miss and both trigger, and the later one to finish overwrites the entry. The model does not capture that interleaving.
- `ClientHelpers.Truncate`: lengths and `slice` positions count code points, while JavaScript counts UTF-16 code units. A text with characters outside the Basic Multilingual Plane is cut at a different place than in the browser. `JsText.Slice` has the same limitation.
- `ScrapeCache.Cache.Get`: an expired entry is evicted only when it is read, as in the source. Entries never read again stay in the map.
