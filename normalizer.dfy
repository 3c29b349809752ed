/** `transformCompanyResults` of `server/brightdata.js` and its helpers: turning the
    provider's LinkedIn records into the application's company shape. JavaScript's
    `a || b` on strings becomes `OrElse`; the case-insensitive regular expressions
    `/k1|k2|.../i` become "the lower-cased text contains one of the keywords". */
module Normalizer {
  import opened Wrappers
  import opened JsText
  import opened SeqUtils
  import opened Records

  // ---------------------------------------------------------------- shared helpers

  /** `a || b` for strings: the empty string is the only falsy one. */
  function OrElse(a: string, b: string): (r: string)
    ensures r == a || r == b
    ensures r == "" ==> a == "" && b == ""
    ensures a != "" ==> r == a
  {
    if a != "" then a else b
  }

  /** `arr?.[0]`, with the absent element as `""`. */
  function FirstOr(s: seq<string>): string {
    if |s| > 0 then s[0] else ""
  }

  /** Does `hay` contain at least one of `needles`? */
  function ContainsAny(hay: string, needles: seq<string>): (b: bool)
    ensures b <==> exists k :: 0 <= k < |needles| && Includes(hay, needles[k])
    decreases |needles|
  {
    if |needles| == 0 then false
    else if Includes(hay, needles[0]) then true
    else
      var b := ContainsAny(hay, needles[1..]);
      assert forall k :: 1 <= k < |needles| ==> needles[k] == needles[1..][k - 1];
      b
  }

  /** `/k1|k2|.../i.test(s)`, with case folded to ASCII lower case. */
  predicate MatchesAnyKeyword(s: string, keywords: seq<string>) {
    ContainsAny(Lower(s), keywords)
  }

  // ---------------------------------------------------------------- region

  const IndianCities: seq<string> := [
    "mumbai", "bangalore", "bengaluru", "delhi", "gurugram", "gurgaon", "hyderabad",
    "chennai", "pune", "kolkata", "noida", "ahmedabad", "jaipur", "kochi", "indore"]

  /** `company.headquarters || company.locations?.[0] || ''`. */
  function HqText(r: RawRecord): string {
    OrElse(r.headquarters, FirstOr(r.locations))
  }

  /** `detectRegion(company)`. */
  function DetectRegion(r: RawRecord): (region: string)
    ensures region == "India" || region == "Global"
    ensures region == "India" <==>
      Lower(r.countryCode) == "in"
      || exists k :: 0 <= k < |IndianCities| && Includes(Lower(HqText(r)), IndianCities[k])
  {
    if Lower(r.countryCode) == "in" || ContainsAny(Lower(HqText(r)), IndianCities) then "India"
    else "Global"
  }

  /** Whatever the headquarters' case, both spellings of the same city count. */
  lemma BengaluruAndBangalore(r: RawRecord)
    requires Includes(Lower(HqText(r)), "bengaluru") || Includes(Lower(HqText(r)), "bangalore")
    ensures DetectRegion(r) == "India"
  {
    assert IndianCities[1] == "bangalore" && IndianCities[2] == "bengaluru";
  }

  /** Where the place text comes from: the headquarters, or else the first location, or
      else nothing; a listed city in the first location of a record without headquarters
      makes it Indian, and so does a country code that lower-cases to `in`. */
  lemma RegionFallbacks(r: RawRecord)
    ensures r.headquarters != "" ==> HqText(r) == r.headquarters
    ensures r.headquarters == "" && |r.locations| > 0 ==> HqText(r) == r.locations[0]
    ensures r.headquarters == "" && r.locations == [] ==> HqText(r) == ""
    ensures r.headquarters == "" && |r.locations| > 0
            && (exists k :: 0 <= k < |IndianCities| && Includes(Lower(r.locations[0]), IndianCities[k]))
            ==> DetectRegion(r) == "India"
    ensures |r.countryCode| == 2 && LowerChar(r.countryCode[0]) == 'i' && LowerChar(r.countryCode[1]) == 'n'
            ==> DetectRegion(r) == "India"
  {
    if |r.countryCode| == 2 && LowerChar(r.countryCode[0]) == 'i' && LowerChar(r.countryCode[1]) == 'n' {
      assert Lower(r.countryCode) == "in";
    }
  }

  // ---------------------------------------------------------------- size

  /** `parseInt(company.employees_in_linkedin || '0')`. */
  function Employees(r: RawRecord): Num {
    ParseInt(OrElse(r.employeesInLinkedin, "0"))
  }

  /** `estimateComplexity(company)`: a `NaN` count fails both comparisons. */
  function EstimateComplexity(r: RawRecord): (c: string)
    ensures c == "High" || c == "Medium" || c == "Low"
  {
    var employees := Employees(r);
    if employees.Int? && employees.v > 5000 then "High"
    else if employees.Int? && employees.v > 1000 then "Medium"
    else "Low"
  }

  /** A decimal count is classified by the two thresholds: over 5000 is high, over 1000
      medium, anything else low (so exactly 5000 is medium and exactly 1000 low). */
  lemma ComplexityOfCount(r: RawRecord, n: nat)
    requires r.employeesInLinkedin == NatToString(n)
    ensures EstimateComplexity(r) == if n > 5000 then "High" else if n > 1000 then "Medium" else "Low"
  {
    ParseIntDigits(NatToString(n));
  }

  /** A count whose text, after white space and a sign, does not start with a decimal
      digit (such as `N/A`, `abc` or `about 500`) parses to `NaN`, which is low. */
  lemma UnparsableIsLow(r: RawRecord)
    requires r.employeesInLinkedin != ""
    requires |Unsigned(r.employeesInLinkedin)| == 0 || !IsDigit(Unsigned(r.employeesInLinkedin)[0])
    ensures Employees(r) == NaN
    ensures EstimateComplexity(r) == "Low"
  {
  }

  /** A missing count is read as `'0'`, which is low. */
  lemma MissingCountIsLow(r: RawRecord)
    requires r.employeesInLinkedin == ""
    ensures Employees(r) == Int(0)
    ensures EstimateComplexity(r) == "Low"
  {
    ParseIntDigits("0");
  }

  // ---------------------------------------------------------------- narratives

  const TechKeywords: seq<string> := ["tech", "cloud", "data", "ai", "software", "saas", "digital"]

  const LargeSentence: string := "Large enterprise with significant cloud infrastructure."
  const MidSentence: string := "Mid-size company likely running cloud workloads."
  const TechSentence: string := "Technology-oriented specialties suggest cloud dependency."
  const WhyFitDefault: string := "LinkedIn company - analyze cloud fit."
  const SignalsDefault: string := "Scraped from LinkedIn - verify cloud stack"

  /** Some specialty mentions one of the technology keywords, in any case. */
  predicate TechSpecialties(specialties: seq<string>) {
    exists k :: 0 <= k < |specialties| && MatchesAnyKeyword(specialties[k], TechKeywords)
  }

  /** The sentences `buildWhyFit` collects, in order: at most one size sentence, then
      perhaps the technology one. */
  function WhyFitParts(r: RawRecord): (parts: seq<string>)
    ensures |parts| <= 2
    ensures forall k :: 0 <= k < |parts| ==> parts[k] == LargeSentence || parts[k] == MidSentence || parts[k] == TechSentence
  {
    var employees := Employees(r);
    var size :=
      if employees.Int? && employees.v > 5000 then [LargeSentence]
      else if employees.Int? && employees.v > 1000 then [MidSentence]
      else [];
    size + if TechSpecialties(r.specialties) then [TechSentence] else []
  }

  /** `buildWhyFit(company)`: the sentences joined with a space, or the default when
      there is none. */
  function BuildWhyFit(r: RawRecord): (text: string)
    ensures WhyFitParts(r) == [] ==> text == WhyFitDefault
    ensures WhyFitParts(r) != [] ==> WhyFitParts(r)[0] <= text
  {
    var parts := WhyFitParts(r);
    OrElse(Join(parts, " "), WhyFitDefault)
  }

  /** The default appears exactly when there is no sentence, and every sentence appears
      in the text. */
  lemma WhyFitMentions(r: RawRecord)
    ensures WhyFitParts(r) == [] <==> BuildWhyFit(r) == WhyFitDefault
    ensures forall k :: 0 <= k < |WhyFitParts(r)| ==> Includes(BuildWhyFit(r), WhyFitParts(r)[k])
  {
    var parts := WhyFitParts(r);
    var joined := Join(parts, " ");
    if parts != [] {
      JoinNonEmpty(parts, " ", 0);
      assert joined[..|parts[0]|] == parts[0];
      assert joined != WhyFitDefault;
      forall k | 0 <= k < |parts| ensures Includes(joined, parts[k]) {
        JoinIncludesPart(parts, " ", k);
      }
    }
  }

  /** The size sentence of `buildWhyFit` follows exactly the thresholds of
      `estimateComplexity`. */
  lemma WhyFitFollowsComplexity(r: RawRecord)
    ensures LargeSentence in WhyFitParts(r) <==> EstimateComplexity(r) == "High"
    ensures MidSentence in WhyFitParts(r) <==> EstimateComplexity(r) == "Medium"
    ensures (TechSentence in WhyFitParts(r)) <==> TechSpecialties(r.specialties)
  {
  }

  /** The facts `buildCloudSignals` reports, in order; there is none exactly when the
      record has no employee count, followers, specialties or industry. */
  function CloudSignalParts(r: RawRecord): (parts: seq<string>)
    ensures |parts| <= 4
    ensures parts == [] <==> r.employeesInLinkedin == "" && r.followers == 0 && r.specialties == [] && r.industry == ""
  {
    (if r.employeesInLinkedin != "" then [r.employeesInLinkedin + " LinkedIn employees"] else [])
    + (if r.followers != 0 then [NatToString(r.followers) + " followers"] else [])
    + (if |r.specialties| > 0 then ["Specialties: " + Join(r.specialties, ", ")] else [])
    + (if r.industry != "" then ["Industry: " + r.industry] else [])
  }

  /** `buildCloudSignals(company)`: the facts joined with `. `, or the default when there
      is none. */
  function BuildCloudSignals(r: RawRecord): (text: string)
    ensures CloudSignalParts(r) == [] ==> text == SignalsDefault
    ensures CloudSignalParts(r) != [] ==> CloudSignalParts(r)[0] <= text
  {
    var parts := CloudSignalParts(r);
    OrElse(Join(parts, ". "), SignalsDefault)
  }

  /** Every fact the record has is mentioned, and the default appears exactly when the
      record has none. */
  lemma CloudSignalsMention(r: RawRecord)
    ensures r.employeesInLinkedin == "" && r.followers == 0 && r.specialties == [] && r.industry == ""
            <==> BuildCloudSignals(r) == SignalsDefault
    ensures r.employeesInLinkedin != "" ==> Includes(BuildCloudSignals(r), r.employeesInLinkedin + " LinkedIn employees")
    ensures r.followers != 0 ==> Includes(BuildCloudSignals(r), NatToString(r.followers) + " followers")
    ensures |r.specialties| > 0 ==> Includes(BuildCloudSignals(r), "Specialties: " + Join(r.specialties, ", "))
    ensures r.industry != "" ==> Includes(BuildCloudSignals(r), "Industry: " + r.industry)
  {
    var parts := CloudSignalParts(r);
    var joined := Join(parts, ". ");
    if parts != [] {
      assert parts[0] != "";
      JoinNonEmpty(parts, ". ", 0);
      assert BuildCloudSignals(r) == joined;
      forall k | 0 <= k < |parts| ensures Includes(joined, parts[k]) {
        JoinIncludesPart(parts, ". ", k);
      }
      var e := if r.employeesInLinkedin != "" then 1 else 0;
      var f := if r.followers != 0 then 1 else 0;
      var s := if |r.specialties| > 0 then 1 else 0;
      if r.employeesInLinkedin != "" { assert parts[0] == r.employeesInLinkedin + " LinkedIn employees"; }
      if r.followers != 0 { assert parts[e] == NatToString(r.followers) + " followers"; }
      if |r.specialties| > 0 { assert parts[e + f] == "Specialties: " + Join(r.specialties, ", "); }
      if r.industry != "" { assert parts[e + f + s] == "Industry: " + r.industry; }
      FirstSignalIsNotDefault(r);
    }
  }

  /** No first fact can begin the default text, so a record with any fact never gets it. */
  lemma FirstSignalIsNotDefault(r: RawRecord)
    requires CloudSignalParts(r) != []
    ensures BuildCloudSignals(r) != SignalsDefault
  {
    var parts := CloudSignalParts(r);
    if r.employeesInLinkedin != "" {
      assert parts[0] == r.employeesInLinkedin + " LinkedIn employees";
      EmployeesPartNotDefault(r.employeesInLinkedin);
    } else if r.followers != 0 {
      assert parts[0] == NatToString(r.followers) + " followers";
      FollowersPartNotDefault(r.followers);
    } else if |r.specialties| > 0 {
      assert parts[0] == "Specialties: " + Join(r.specialties, ", ");
      LabelledPartNotDefault("Specialties: ", Join(r.specialties, ", "));
    } else {
      assert parts[0] == "Industry: " + r.industry;
      LabelledPartNotDefault("Industry: ", r.industry);
    }
  }

  /** The employee-count fact never begins the default text. */
  lemma EmployeesPartNotDefault(e: string)
    ensures !(e + " LinkedIn employees" <= SignalsDefault)
  {
    var p := e + " LinkedIn employees";
    assert p[|e| + 1] == 'L' && p[|e| + 10] == 'e';
  }

  /** The followers fact starts with a digit, which the default text does not. */
  lemma FollowersPartNotDefault(f: nat)
    ensures !(NatToString(f) + " followers" <= SignalsDefault)
  {
    var p := NatToString(f) + " followers";
    assert IsDigit(p[0]) && SignalsDefault[0] == 'S';
  }

  /** The specialties and industry facts start with labels the default text does not. */
  lemma LabelledPartNotDefault(tag: string, value: string)
    requires tag == "Specialties: " || tag == "Industry: "
    ensures !(tag + value <= SignalsDefault)
  {
    var p := tag + value;
    assert p[1] == tag[1];
    assert SignalsDefault[1] == 'c';
  }

  // ---------------------------------------------------------------- ICP match

  const FoodKeywords: seq<string> := ["food", "beverage", "fmcg", "consumer"]
  const MediaKeywords: seq<string> := ["media", "publishing", "entertainment"]
  const DrinksKeywords: seq<string> := ["spirits", "wine", "beer", "brew"]
  const CommerceKeywords: seq<string> := ["ecommerce", "e-commerce", "retail", "d2c"]

  /** `matchICP(company)`: the reference customer of the first keyword group the
      lower-cased industry matches. */
  function MatchIcp(r: RawRecord): (customer: string)
    ensures customer == "TCPL / Coca-Cola" <==> MatchesAnyKeyword(r.industry, FoodKeywords)
    ensures customer == "Condé Nast" <==>
      !MatchesAnyKeyword(r.industry, FoodKeywords) && MatchesAnyKeyword(r.industry, MediaKeywords)
    ensures customer == "Diageo" <==>
      !MatchesAnyKeyword(r.industry, FoodKeywords) && !MatchesAnyKeyword(r.industry, MediaKeywords)
      && MatchesAnyKeyword(r.industry, DrinksKeywords)
    ensures customer == "Shaddu.com" <==>
      !MatchesAnyKeyword(r.industry, FoodKeywords) && !MatchesAnyKeyword(r.industry, MediaKeywords)
      && !MatchesAnyKeyword(r.industry, DrinksKeywords) && MatchesAnyKeyword(r.industry, CommerceKeywords)
    ensures customer == "Analyze similarity" <==>
      !MatchesAnyKeyword(r.industry, FoodKeywords) && !MatchesAnyKeyword(r.industry, MediaKeywords)
      && !MatchesAnyKeyword(r.industry, DrinksKeywords) && !MatchesAnyKeyword(r.industry, CommerceKeywords)
  {
    if MatchesAnyKeyword(r.industry, FoodKeywords) then "TCPL / Coca-Cola"
    else if MatchesAnyKeyword(r.industry, MediaKeywords) then "Condé Nast"
    else if MatchesAnyKeyword(r.industry, DrinksKeywords) then "Diageo"
    else if MatchesAnyKeyword(r.industry, CommerceKeywords) then "Shaddu.com"
    else "Analyze similarity"
  }

  /** The keyword groups of `matchICP`, in the order they are tried, and the customer
      each one names. */
  const IcpGroups: seq<seq<string>> := [FoodKeywords, MediaKeywords, DrinksKeywords, CommerceKeywords]
  const IcpCustomers: seq<string> := ["TCPL / Coca-Cola", "Condé Nast", "Diageo", "Shaddu.com"]

  /** When an industry matches two groups, the earlier one decides: the customer is never
      the later group's, and always that of the earlier group or of one before it. */
  lemma FirstGroupWins(r: RawRecord, i: nat, j: nat)
    requires i < j < |IcpGroups|
    requires MatchesAnyKeyword(r.industry, IcpGroups[i]) && MatchesAnyKeyword(r.industry, IcpGroups[j])
    ensures MatchIcp(r) in IcpCustomers[..i + 1]
    ensures MatchIcp(r) != IcpCustomers[j]
  {
    var first := IcpCustomers[..i + 1];
    if i == 0 {
      assert MatchIcp(r) == first[0];
    } else if i == 1 {
      assert MatchIcp(r) == first[0] || MatchIcp(r) == first[1];
    } else {
      assert MatchIcp(r) == first[0] || MatchIcp(r) == first[1] || MatchIcp(r) == first[2];
    }
  }

  // ---------------------------------------------------------------- the record

  const CategoryDefault: string := "high-fit"

  /** One element of `transformCompanyResults`. `scrapedAt` is left out. */
  function Normalize(r: RawRecord, category: string): (c: Company)
    ensures c.category == category && !c.verified && c.scrapedLive
    ensures c.company != "" && c.industry != "" && c.hq != "" && c.employeeCount != ""
    ensures c.company == "Unknown" <==> OrElse(r.name, r.companyName) in {"", "Unknown"}
    ensures r.name != "" ==> c.company == r.name
    ensures r.name == "" ==> c.company == OrElse(r.companyName, "Unknown")
    ensures c.icpSimilarity == if category == "icp-similar" then MatchIcp(r) else "Analyze"
    ensures c.region == DetectRegion(r) && c.cloudComplexity == EstimateComplexity(r)
    ensures c.followers == r.followers && c.specialties == r.specialties
    ensures c.cloudSignals == BuildCloudSignals(r) && c.whyFit == BuildWhyFit(r)
    ensures c.estCloudSpend == "Research needed" && c.cloudProviders == "Research needed"
    ensures r.industry != "" ==> c.industry == r.industry
    ensures r.industry == "" && Join(r.industries, ", ") != "" ==> c.industry == Join(r.industries, ", ")
    ensures r.industry == "" && Join(r.industries, ", ") == "" ==> c.industry == "Unknown"
    ensures HqText(r) != "" ==> c.hq == HqText(r)
    ensures HqText(r) == "" ==> c.hq == "Unknown"
    ensures r.employeesInLinkedin != "" ==> c.employeeCount == r.employeesInLinkedin
    ensures r.employeesInLinkedin == "" && r.companySize != "" ==> c.employeeCount == r.companySize
    ensures r.employeesInLinkedin == "" && r.companySize == "" ==> c.employeeCount == "Unknown"
    ensures r.linkedinId != "" ==> c.linkedinSlug == r.linkedinId
    ensures r.linkedinId == "" ==> c.linkedinSlug == r.id
    ensures c.linkedinUrl == r.url && c.about == r.about
  {
    Company(
      company := OrElse(r.name, OrElse(r.companyName, "Unknown")),
      industry := OrElse(r.industry, OrElse(Join(r.industries, ", "), "Unknown")),
      category := category,
      region := DetectRegion(r),
      hq := OrElse(HqText(r), "Unknown"),
      estCloudSpend := "Research needed",
      cloudComplexity := EstimateComplexity(r),
      cloudProviders := "Research needed",
      cloudSignals := BuildCloudSignals(r),
      whyFit := BuildWhyFit(r),
      icpSimilarity := if category == "icp-similar" then MatchIcp(r) else "Analyze",
      verified := false,
      employeeCount := OrElse(r.employeesInLinkedin, OrElse(r.companySize, "Unknown")),
      linkedinSlug := OrElse(r.linkedinId, r.id),
      linkedinUrl := r.url,
      followers := r.followers,
      about := r.about,
      specialties := r.specialties,
      scrapedLive := true)
  }

  /** `transformCompanyResults(rawResults, category = 'high-fit')`: nothing for a payload
      that is not an array, otherwise one company per record, in order. */
  function TransformCompanyResults(raw: Payload, category: Option<string>): (out: seq<Company>)
    ensures raw.NonArray? ==> out == []
    ensures raw.Rows? ==> |out| == |raw.rows|
    ensures raw.Rows? ==> forall i :: 0 <= i < |out| ==> out[i] == Normalize(raw.rows[i], category.GetOr(CategoryDefault))
  {
    match raw
    case NonArray(_) => []
    case Rows(rows) =>
      var cat := category.GetOr(CategoryDefault);
      seq(|rows|, i requires 0 <= i < |rows| => Normalize(rows[i], cat))
  }

  /** The shape every normalised record has. */
  lemma TransformedShape(raw: Payload, category: Option<string>, i: nat)
    requires raw.Rows? && i < |raw.rows|
    ensures var c := TransformCompanyResults(raw, category)[i];
            && c.category == category.GetOr(CategoryDefault)
            && !c.verified && c.scrapedLive && c.company != ""
            && (raw.rows[i].name == "" && raw.rows[i].companyName == "" ==> c.company == "Unknown")
            && c.icpSimilarity == (if category == Some("icp-similar") then MatchIcp(raw.rows[i]) else "Analyze")
  {
  }

  /** Normalising concatenated batches is concatenating the normalised batches. */
  lemma TransformConcat(a: seq<RawRecord>, b: seq<RawRecord>, category: Option<string>)
    ensures TransformCompanyResults(Rows(a + b), category)
            == TransformCompanyResults(Rows(a), category) + TransformCompanyResults(Rows(b), category)
  {
    var whole := TransformCompanyResults(Rows(a + b), category);
    var left := TransformCompanyResults(Rows(a), category);
    var right := TransformCompanyResults(Rows(b), category);
    assert |whole| == |left + right|;
    forall i | 0 <= i < |whole| ensures whole[i] == (left + right)[i] {
      if i < |a| {
        assert (a + b)[i] == a[i];
      } else {
        assert (a + b)[i] == b[i - |a|];
      }
    }
  }
}
