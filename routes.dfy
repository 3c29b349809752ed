/** The request handlers of `server/routes.js`, as functions from the company list and
    the query-string parameters to the JSON body or the 400 error. A query parameter that
    is absent or empty is `""` (both are falsy); `page` and `limit` keep the difference,
    because only an absent one takes its default. The random-comparator sort takes its
    choices as an argument. */
module Routes {
  import opened Wrappers
  import opened JsText
  import opened SeqUtils
  import opened Records

  // ---------------------------------------------------------------- listings

  datatype ListingQuery = ListingQuery(
    page: Option<string>,
    limit: Option<string>,
    search: string,
    region: string,
    complexity: string)

  /** The body of `/api/icp-similar` and `/api/high-fit`. `icp_reference` is a constant
      of `companies-data.js` and is left out. */
  datatype Listing = Listing(total: nat, page: Num, limit: Num, companies: seq<Company>)

  const DefaultPage: int := 1
  const DefaultLimit: int := 50

  /** `parseInt(p)` of a parameter whose destructuring default is the number `d`: an
      absent parameter takes the default, an empty one is `NaN`, and a decimal numeral
      is its value. */
  function NumberParam(p: Option<string>, d: int): (n: Num)
    ensures p.None? ==> n == Int(d)
    ensures p == Some("") ==> n == NaN
    ensures p.Some? && |p.value| > 0 && (forall i :: 0 <= i < |p.value| ==> IsDigit(p.value[i]))
            ==> n == Int(DigitsValue(p.value, 10))
  {
    match p
    case None => Int(d)
    case Some(s) =>
      if |s| > 0 && (forall i :: 0 <= i < |s| ==> IsDigit(s[i])) then ParseIntDigits(s); ParseInt(s)
      else ParseInt(s)
  }

  /** The case-insensitive search of `/api/icp-similar`. */
  predicate IcpSearchHit(c: Company, q: string) {
    Includes(Lower(c.company), q) || Includes(Lower(c.industry), q)
    || Includes(Lower(c.icpSimilarity), q) || Includes(Lower(c.hq), q)
  }

  /** The case-insensitive search of `/api/high-fit`: provider names instead of the ICP
      label. */
  predicate HighFitSearchHit(c: Company, q: string) {
    Includes(Lower(c.company), q) || Includes(Lower(c.industry), q)
    || Includes(Lower(c.cloudProviders), q) || Includes(Lower(c.hq), q)
  }

  /** Which records `/api/icp-similar` lists, as one condition. */
  predicate IcpSelected(c: Company, query: ListingQuery) {
    && c.category == "icp-similar"
    && (query.search == "" || IcpSearchHit(c, Lower(query.search)))
    && (query.region == "" || Lower(c.region) == Lower(query.region))
  }

  /** Which records `/api/high-fit` lists, as one condition. */
  predicate HighFitSelected(c: Company, query: ListingQuery) {
    && c.category == "high-fit"
    && (query.search == "" || HighFitSearchHit(c, Lower(query.search)))
    && (query.region == "" || Lower(c.region) == Lower(query.region))
    && (query.complexity == "" || Lower(c.cloudComplexity) == Lower(query.complexity))
  }

  /** The filter chain of `/api/icp-similar`, before the shuffle. */
  function IcpMatches(db: seq<Company>, query: ListingQuery): (r: seq<Company>)
    ensures forall x :: multiset(r)[x] == if IcpSelected(x, query) then multiset(db)[x] else 0
  {
    var companies := AllCompanies(db, "icp-similar");
    var q := Lower(query.search);
    var searched := if query.search != "" then Filter(companies, (c: Company) => IcpSearchHit(c, q)) else companies;
    var region := Lower(query.region);
    if query.region != "" then Filter(searched, (c: Company) => Lower(c.region) == region) else searched
  }

  /** The filter chain of `/api/high-fit`, before the shuffle. */
  function HighFitMatches(db: seq<Company>, query: ListingQuery): (r: seq<Company>)
    ensures forall x :: multiset(r)[x] == if HighFitSelected(x, query) then multiset(db)[x] else 0
  {
    var companies := AllCompanies(db, "high-fit");
    var q := Lower(query.search);
    var searched := if query.search != "" then Filter(companies, (c: Company) => HighFitSearchHit(c, q)) else companies;
    var region := Lower(query.region);
    var regional := if query.region != "" then Filter(searched, (c: Company) => Lower(c.region) == region) else searched;
    var complexity := Lower(query.complexity);
    if query.complexity != "" then Filter(regional, (c: Company) => Lower(c.cloudComplexity) == complexity) else regional
  }

  /** Shuffle, then `slice(start, start + limit)` with `start = (page - 1) * limit`. */
  function Paginate(matches: seq<Company>, query: ListingQuery, picks: seq<nat>): (body: Listing)
    ensures body.total == |matches|
    ensures multiset(body.companies) <= multiset(matches)
  {
    var companies := Scramble(matches, picks);
    var page := NumberParam(query.page, DefaultPage);
    var limit := NumberParam(query.limit, DefaultLimit);
    var start := page.Minus(Int(1)).Times(limit);
    var paginated := Slice(companies, start, start.Plus(limit));
    SliceIsSubMultiset(companies, start, start.Plus(limit));
    Listing(|companies|, page, limit, paginated)
  }

  lemma SliceIsSubMultiset<T>(s: seq<T>, start: Num, end: Num)
    ensures multiset(Slice(s, start, end)) <= multiset(s)
  {
    var from := RelativeIndex(start, |s|);
    var to := RelativeIndex(end, |s|);
    if from < to {
      assert s == s[..from] + s[from..to] + s[to..];
    }
  }

  /** `GET /api/icp-similar`. */
  function IcpSimilar(db: seq<Company>, query: ListingQuery, picks: seq<nat>): (body: Listing)
    ensures body.total == |IcpMatches(db, query)|
    ensures forall i :: 0 <= i < |body.companies| ==> IcpSelected(body.companies[i], query) && body.companies[i] in db
  {
    var matches := IcpMatches(db, query);
    var body := Paginate(matches, query, picks);
    SelectedMembers(body.companies, matches, db, (c: Company) => IcpSelected(c, query));
    body
  }

  /** `GET /api/high-fit`. */
  function HighFit(db: seq<Company>, query: ListingQuery, picks: seq<nat>): (body: Listing)
    ensures body.total == |HighFitMatches(db, query)|
    ensures forall i :: 0 <= i < |body.companies| ==> HighFitSelected(body.companies[i], query) && body.companies[i] in db
  {
    var matches := HighFitMatches(db, query);
    var body := Paginate(matches, query, picks);
    SelectedMembers(body.companies, matches, db, (c: Company) => HighFitSelected(c, query));
    body
  }

  lemma SelectedMembers(page: seq<Company>, matches: seq<Company>, db: seq<Company>, selected: Company -> bool)
    requires multiset(page) <= multiset(matches)
    requires forall x :: multiset(matches)[x] == if selected(x) then multiset(db)[x] else 0
    ensures forall i :: 0 <= i < |page| ==> selected(page[i]) && page[i] in db
  {
    forall i | 0 <= i < |page| ensures selected(page[i]) && page[i] in db {
      var x := page[i];
      assert x in multiset(page);
      assert multiset(matches)[x] > 0;
    }
  }

  /** The number of records a filter chain keeps is the number that meet its condition. */
  lemma CountSelected(r: seq<Company>, db: seq<Company>, selected: Company -> bool)
    requires forall x :: multiset(r)[x] == if selected(x) then multiset(db)[x] else 0
    ensures |r| == |Filter(db, selected)|
  {
    assert multiset(r) == multiset(Filter(db, selected));
    assert |multiset(r)| == |multiset(Filter(db, selected))|;
  }

  /** `total` counts every selected record and does not depend on `page` or `limit`. */
  lemma TotalIsSelectedCount(db: seq<Company>, query: ListingQuery, other: ListingQuery, picks: seq<nat>, picks': seq<nat>)
    requires other.search == query.search && other.region == query.region && other.complexity == query.complexity
    ensures IcpSimilar(db, query, picks).total == |Filter(db, (c: Company) => IcpSelected(c, query))|
    ensures IcpSimilar(db, query, picks).total == IcpSimilar(db, other, picks').total
    ensures HighFit(db, query, picks).total == |Filter(db, (c: Company) => HighFitSelected(c, query))|
    ensures HighFit(db, query, picks).total == HighFit(db, other, picks').total
  {
    CountSelected(IcpMatches(db, query), db, (c: Company) => IcpSelected(c, query));
    CountSelected(HighFitMatches(db, query), db, (c: Company) => HighFitSelected(c, query));
    assert IcpMatches(db, query) == IcpMatches(db, other);
    assert HighFitMatches(db, query) == HighFitMatches(db, other);
  }

  /** A window of a list read with `slice(start, start + limit)` from a start that is
      not negative: at most `limit` records, taken from `start` on; a window past the end
      is empty. */
  lemma PageWindow<T>(s: seq<T>, start: nat, limit: nat)
    ensures var r := Slice(s, Int(start), Int(start + limit));
            && |r| == (if start >= |s| then 0 else if limit < |s| - start then limit else |s| - start)
            && forall i :: 0 <= i < |r| ==> r[i] == s[start + i]
  {
    SliceNonNegative(s, start, start + limit);
  }

  lemma TimesInts(a: int, b: int)
    ensures Int(a).Times(Int(b)) == Int(a * b)
  {
  }

  /** For `page >= 1` and `limit >= 0` the listing's page is the contiguous run of the
      shuffled matches that starts at `(page - 1) * limit` and holds at most `limit`
      records; a page past the end is empty. */
  lemma ListingPage(matches: seq<Company>, query: ListingQuery, picks: seq<nat>, page: int, limit: int, start: nat)
    requires NumberParam(query.page, DefaultPage) == Int(page) && page >= 1
    requires NumberParam(query.limit, DefaultLimit) == Int(limit) && limit >= 0
    requires start == (page - 1) * limit
    ensures var shuffled := Scramble(matches, picks);
            var r := Paginate(matches, query, picks).companies;
            && |r| == (if start >= |matches| then 0 else if limit < |matches| - start then limit else |matches| - start)
            && forall i :: 0 <= i < |r| ==> start + i < |shuffled| && r[i] == shuffled[start + i]
  {
    PaginateSlice(matches, query, picks, page, limit, start);
    PageWindow(Scramble(matches, picks), start, limit);
  }

  /** The page is `slice(start, start + limit)` of the shuffled matches. */
  lemma PaginateSlice(matches: seq<Company>, query: ListingQuery, picks: seq<nat>, page: int, limit: int, start: int)
    requires NumberParam(query.page, DefaultPage) == Int(page)
    requires NumberParam(query.limit, DefaultLimit) == Int(limit)
    requires start == (page - 1) * limit
    ensures Paginate(matches, query, picks).companies == Slice(Scramble(matches, picks), Int(start), Int(start + limit))
  {
    PageStart(NumberParam(query.page, DefaultPage), NumberParam(query.limit, DefaultLimit), page, limit, start);
  }

  /** `(page - 1) * limit` and `startIndex + limit` on numbers that are integers. */
  lemma PageStart(pageNum: Num, limitNum: Num, page: int, limit: int, start: int)
    requires pageNum == Int(page) && limitNum == Int(limit) && start == (page - 1) * limit
    ensures pageNum.Minus(Int(1)).Times(limitNum) == Int(start)
    ensures Int(start).Plus(limitNum) == Int(start + limit)
  {
    TimesInts(page - 1, limit);
  }

  /** A `page` below 1 is not rejected. `page=0` asks for `slice(-limit, 0)`, which is empty;
      with a negative page and a positive limit both bounds count back from the end of the
      shuffled matches, so the page lists records from the tail of the list. */
  lemma NonPositivePage(matches: seq<Company>, query: ListingQuery, picks: seq<nat>, page: int, limit: int, start: int)
    requires NumberParam(query.page, DefaultPage) == Int(page) && page <= 0
    requires NumberParam(query.limit, DefaultLimit) == Int(limit) && limit >= 0
    requires start == (page - 1) * limit
    ensures var r := Paginate(matches, query, picks).companies;
            && (page == 0 ==> r == [])
            && (var from := if |matches| + start < 0 then 0 else |matches| + start;
                var to := |matches| + start + limit;
                page < 0 && limit > 0 && to > 0 ==> to <= |matches| && r == Scramble(matches, picks)[from..to])
  {
    PaginateSlice(matches, query, picks, page, limit, start);
    NonPositiveProduct(page, limit, start);
    SliceFromEnd(Scramble(matches, picks), start, start + limit);
  }

  /** With `page <= 0` the page's end bound `page * limit` is not positive. */
  lemma NonPositiveProduct(page: int, limit: int, start: int)
    requires page <= 0 && limit >= 0 && start == (page - 1) * limit
    ensures start + limit <= 0
    ensures page == 0 ==> start + limit == 0
    ensures page < 0 && limit > 0 ==> start + limit < 0
  {
    assert start + limit == page * limit;
  }

  /** `slice(a, b)` with an end bound of 0 is empty; with negative bounds both count back
      from the end. */
  lemma SliceFromEnd<T>(s: seq<T>, a: int, b: int)
    requires a <= b <= 0
    ensures b == 0 ==> Slice(s, Int(a), Int(b)) == []
    ensures b < 0 && |s| + b > 0 ==>
      Slice(s, Int(a), Int(b)) == s[if |s| + a < 0 then 0 else |s| + a..|s| + b]
  {
  }

  /** With neither `page` nor `limit` given, the first 50 shuffled matches are listed. */
  lemma DefaultPaging(matches: seq<Company>, query: ListingQuery, picks: seq<nat>)
    requires query.page.None? && query.limit.None?
    ensures var r := Paginate(matches, query, picks).companies;
            && |r| == (if |matches| < 50 then |matches| else 50)
            && r == Scramble(matches, picks)[..|r|]
  {
    ListingPage(matches, query, picks, 1, 50, 0);
  }

  // ---------------------------------------------------------------- stats

  datatype Stats = Stats(
    totalCompanies: nat,
    icpSimilar: nat,
    highFit: nat,
    indianCompanies: nat,
    globalCompanies: nat,
    highComplexity: nat,
    verified: nat,
    targetRoles: nat)

  /** The conditions the counts test. */
  predicate IsIcpSimilar(c: Company) { c.category == "icp-similar" }
  predicate IsHighFit(c: Company) { c.category == "high-fit" }
  predicate InIndia(c: Company) { c.region == "India" }
  predicate InGlobal(c: Company) { c.region == "Global" }
  predicate IsHighComplexity(c: Company) { c.cloudComplexity == "High" }
  predicate IsVerified(c: Company) { c.verified }

  /** The counts `/api/stats` and the browser's `getStatsStatic` report, over one list of
      companies and the list of target roles. */
  function CountStats(db: seq<Company>, icpSimilar: seq<Company>, highFit: seq<Company>, targetRoles: seq<string>): (s: Stats)
    ensures s.totalCompanies == |db| && s.targetRoles == |targetRoles|
    ensures s.indianCompanies + s.globalCompanies <= s.totalCompanies
    ensures s.highComplexity <= s.totalCompanies && s.verified <= s.totalCompanies
  {
    DisjointFiltersBound(db, InIndia, InGlobal);
    Stats(
      |db|,
      |icpSimilar|,
      |highFit|,
      |Filter(db, InIndia)|,
      |Filter(db, InGlobal)|,
      |Filter(db, IsHighComplexity)|,
      |Filter(db, IsVerified)|,
      |targetRoles|)
  }

  /** `GET /api/stats`: each count is the number of records passing its condition, so the
      two categories and the two regions never add up to more than the total. */
  function ApiStats(db: seq<Company>, targetRoles: seq<string>): (s: Stats)
    ensures s.totalCompanies == |db| && s.targetRoles == |targetRoles|
    ensures s.icpSimilar == |Filter(db, IsIcpSimilar)| && s.highFit == |Filter(db, IsHighFit)|
    ensures s.indianCompanies == |Filter(db, InIndia)| && s.globalCompanies == |Filter(db, InGlobal)|
    ensures s.highComplexity == |Filter(db, IsHighComplexity)| && s.verified == |Filter(db, IsVerified)|
    ensures s.icpSimilar + s.highFit <= s.totalCompanies
    ensures s.indianCompanies + s.globalCompanies <= s.totalCompanies
    ensures s.highComplexity <= s.totalCompanies && s.verified <= s.totalCompanies
  {
    FilterAgree(db, (c: Company) => c.category == "icp-similar", IsIcpSimilar);
    FilterAgree(db, (c: Company) => c.category == "high-fit", IsHighFit);
    DisjointFiltersBound(db, IsIcpSimilar, IsHighFit);
    DisjointFiltersBound(db, InIndia, InGlobal);
    CountStats(db, AllCompanies(db, "icp-similar"), AllCompanies(db, "high-fit"), targetRoles)
  }

  // ---------------------------------------------------------------- required parameters

  /** A JSON body, or a 400 answer with its error message. */
  datatype Response<T> = Json(body: T) | BadRequest(error: string)

  const DefaultRoleQuery: string :=
    "CTO OR \"VP Engineering\" OR \"Head of Technology\" OR \"VP DevOps\" OR \"Head of DevOps\" OR \"FinOps\" OR \"CISO\" OR \"CIO\" OR \"VP Infrastructure\" OR \"Head of SRE\""
  const DefaultFallbackRoles: string := "CTO OR VP Engineering OR DevOps OR CISO OR CIO"

  datatype PeopleSearch = PeopleSearch(company: string, linkedinUrl: string, googleFallback: string, targetRoles: seq<string>)

  const PeoplePrefix: string := "https://www.linkedin.com/search/results/people/?keywords="
  const FallbackPrefix: string := "https://www.google.com/search?q=site:linkedin.com/in+"

  /** The people-search URL for a role query at a company. */
  function PeopleUrl(roleQuery: string, company: string): (url: string)
    ensures Includes(url, EncodeUriComponent(roleQuery))
    ensures Includes(url, "&company=" + EncodeUriComponent(company) + "&origin=FACETED_SEARCH")
  {
    var tail := "&company=" + EncodeUriComponent(company) + "&origin=FACETED_SEARCH";
    var url := PeoplePrefix + EncodeUriComponent(roleQuery) + tail;
    IncludesMiddle(PeoplePrefix, EncodeUriComponent(roleQuery), tail);
    IncludesMiddle(PeoplePrefix + EncodeUriComponent(roleQuery), tail, "");
    assert PeoplePrefix + EncodeUriComponent(roleQuery) + tail + "" == url;
    url
  }

  /** The Google fallback for a company and a role list. */
  function FallbackUrl(company: string, roles: string): (url: string)
    ensures Includes(url, EncodeUriComponent(company)) && Includes(url, EncodeUriComponent(roles))
  {
    var encCompany := EncodeUriComponent(company);
    var encRoles := EncodeUriComponent(roles);
    IncludesParts(FallbackPrefix, encCompany, "+", encRoles);
    FallbackPrefix + encCompany + "+" + encRoles
  }

  /** `GET /api/linkedin-search?company=&role=`: a missing company is refused before
      any URL is built; a missing role falls back to the default title lists. */
  function LinkedInSearch(company: string, role: string, targetRoles: seq<string>): (r: Response<PeopleSearch>)
    ensures r.BadRequest? <==> company == ""
    ensures r.Json? ==> r.body.company == company && r.body.targetRoles == targetRoles
    ensures r.Json? ==> Includes(r.body.linkedinUrl, "&company=" + EncodeUriComponent(company) + "&origin=FACETED_SEARCH")
    ensures r.Json? ==> Includes(r.body.linkedinUrl, EncodeUriComponent(if role != "" then role else DefaultRoleQuery))
    ensures r.Json? ==> Includes(r.body.googleFallback, EncodeUriComponent(company))
    ensures r.Json? ==> Includes(r.body.googleFallback, EncodeUriComponent(if role != "" then role else DefaultFallbackRoles))
  {
    if company == "" then BadRequest("Company name is required")
    else
      var roleQuery := if role != "" then role else DefaultRoleQuery;
      var fallbackRoles := if role != "" then role else DefaultFallbackRoles;
      Json(PeopleSearch(company, PeopleUrl(roleQuery, company), FallbackUrl(company, fallbackRoles), targetRoles))
  }

  datatype SearchResults = SearchResults(total: nat, results: seq<Company>)

  /** `GET /api/search?q=`; `searchCompanies` belongs to `companies-data.js` and is an
      argument. */
  function Search(q: string, searchCompanies: string -> seq<Company>): (r: Response<SearchResults>)
    ensures r.BadRequest? <==> q == ""
    ensures r.Json? ==> r.body.results == searchCompanies(q) && r.body.total == |r.body.results|
  {
    if q == "" then BadRequest("Query is required")
    else
      var results := searchCompanies(q);
      Json(SearchResults(|results|, results))
  }

  datatype VerifyLinks = VerifyLinks(
    company: string, revenue: string, cloud: string, devops: string,
    finops: string, tech: string, linkedin: string)

  const GoogleSearch: string := "https://www.google.com/search?q="

  /** A Google search for the company name followed by some words. */
  function GoogleQuery(company: string, words: string): (url: string)
    ensures GoogleSearch <= url
  {
    GoogleSearch + EncodeUriComponent(company + words)
  }

  /** `GET /api/google-verify?company=`. */
  function GoogleVerify(company: string): (r: Response<VerifyLinks>)
    ensures r.BadRequest? <==> company == ""
    ensures r.Json? ==> r.body.company == company
    ensures r.Json? ==> && GoogleSearch <= r.body.revenue && GoogleSearch <= r.body.cloud
                        && GoogleSearch <= r.body.devops && GoogleSearch <= r.body.finops
                        && GoogleSearch <= r.body.tech && GoogleSearch <= r.body.linkedin
    ensures r.Json? ==> Includes(r.body.linkedin, EncodeUriComponent(company))
  {
    if company == "" then BadRequest("Company name required")
    else
      var prefix := GoogleSearch + "site:linkedin.com+";
      var suffix := "+CTO+OR+VP+Engineering";
      var encCompany := EncodeUriComponent(company);
      var linkedin := prefix + encCompany + suffix;
      IncludesMiddle(prefix, encCompany, suffix);
      assert GoogleSearch <= prefix <= linkedin;
      Json(VerifyLinks(
        company,
        GoogleQuery(company, " annual revenue financial results"),
        GoogleQuery(company, " cloud infrastructure AWS Azure GCP kubernetes"),
        GoogleQuery(company, " DevOps SRE engineering team hiring"),
        GoogleQuery(company, " FinOps cloud cost optimization"),
        GoogleQuery(company, " technology stack engineering blog"),
        linkedin))
  }
}
