/** The discovery-link generators of `server/discovery.js`. Each `Math.random()` the
    source consults is a supplied value: the coin `Math.random() > 0.5` that picks the
    industry list, and the element each `pickRandom` returns. `PickOne` and `PickSome`
    model `pickRandom` itself, and `PickOneReaches` shows that the values a draw may
    carry are exactly those `pickRandom` can return. */
module Discovery {
  import opened Wrappers
  import opened JsText
  import opened SeqUtils

  // ---------------------------------------------------------------- constant lists

  const IcpIndustries: seq<string> := [
    "FMCG", "Consumer Goods", "Beverages", "Food Manufacturing",
    "Spirits", "Brewing", "Media", "Publishing", "Digital Media",
    "D2C", "E-Commerce", "Quick Commerce", "Retail Tech"]

  const CloudIndustries: seq<string> := [
    "Fintech", "HealthTech", "EdTech", "Gaming", "SaaS",
    "Logistics Tech", "InsurTech", "PropTech", "AgriTech",
    "Cloud Native", "DevOps", "Data Engineering", "AI ML",
    "Cybersecurity", "API Platform", "Developer Tools"]

  const IndiaRegions: seq<string> := ["India", "Mumbai", "Bangalore", "Delhi", "Hyderabad", "Pune", "Chennai", "Gurugram", "Noida"]
  const GlobalRegions: seq<string> := ["USA", "UK", "Germany", "Singapore", "Australia", "Canada", "Netherlands"]

  const DmTitles: seq<string> := [
    "CTO", "VP Engineering", "Head of Technology", "VP DevOps",
    "Head of DevOps", "Director FinOps", "CISO", "CIO",
    "Head of SRE", "VP Infrastructure", "Head of Cloud",
    "Director Cloud Engineering", "VP Platform Engineering"]

  const CloudNames: seq<string> := ["AWS", "GCP", "Azure"]

  /** No industry is in both lists. */
  lemma IndustryListsDisjoint()
    ensures forall x :: x in CloudIndustries ==> x !in IcpIndustries
  {
  }

  lemma DmTitlesDistinct()
    ensures Distinct(DmTitles)
  {
  }

  // ---------------------------------------------------------------- pickRandom

  /** `pickRandom(arr)` (the `n === 1` branch): the first element of the shuffled copy,
      absent for an empty array. The shuffle takes first the element its first pick
      selects. */
  function PickOne<T>(arr: seq<T>, picks: seq<nat>): (r: Option<T>)
    ensures r.Some? <==> |arr| > 0
    ensures r.Some? ==> r.value in arr
  {
    if |arr| == 0 then None
    else Some(arr[(if |picks| > 0 then picks[0] else 0) % |arr|])
  }

  /** Every element of the array is a possible outcome. */
  lemma PickOneReaches<T>(arr: seq<T>, x: T)
    requires x in arr
    ensures exists picks :: PickOne(arr, picks) == Some(x)
  {
    var k :| 0 <= k < |arr| && arr[k] == x;
    var picks := [k];
    assert picks[0] % |arr| == k;
    assert PickOne(arr, picks) == Some(x);
  }

  /** `pickRandom(arr, n)` for `n !== 1`: the first `n` elements of the shuffled copy. */
  function PickSome<T>(arr: seq<T>, n: int, picks: seq<nat>): (r: seq<T>)
    ensures n >= 0 ==> |r| == if n < |arr| then n else |arr|
    ensures multiset(r) <= multiset(arr)
  {
    var shuffled := Scramble(arr, picks);
    SlicePrefix(shuffled, Int(n));
    Slice(shuffled, Int(0), Int(n))
  }

  /** `slice(0, end)` is a prefix: its elements are a part of the original's. */
  lemma SlicePrefix<T>(s: seq<T>, end: Num)
    ensures Slice(s, Int(0), end) == s[..RelativeIndex(end, |s|)]
    ensures multiset(Slice(s, Int(0), end)) <= multiset(s)
  {
    var k := RelativeIndex(end, |s|);
    assert s == s[..k] + s[k..];
  }

  /** Picking one element and picking several use the same shuffle: the one is the head
      of the shuffled copy. */
  lemma PickOneIsHead<T>(arr: seq<T>, picks: seq<nat>)
    requires |arr| > 0
    ensures PickOne(arr, picks) == Some(Scramble(arr, picks)[0])
    ensures PickSome(arr, 1, picks) == [PickOne(arr, picks).value]
  {
    SlicePrefix(Scramble(arr, picks), Int(1));
  }

  /** Picked elements are elements of the array. */
  lemma PickSomeMembers<T>(arr: seq<T>, n: int, picks: seq<nat>)
    ensures forall x :: x in PickSome(arr, n, picks) ==> x in arr
  {
    var r := PickSome(arr, n, picks);
    forall x | x in r ensures x in arr {
      assert x in multiset(r);
    }
  }

  /** Several elements of a list without repeats are distinct. */
  lemma PickSomeDistinct<T>(arr: seq<T>, n: int, picks: seq<nat>)
    requires Distinct(arr)
    ensures Distinct(PickSome(arr, n, picks))
  {
    DistinctSubMultiset(arr, PickSome(arr, n, picks));
  }

  // ---------------------------------------------------------------- links

  /** The `type` field of a link. */
  datatype Kind = IcpDiscovery | CloudDiscovery | Icp | Cloud | Dm | Signal

  const CompanySearchPrefix: string := "https://www.linkedin.com/search/results/companies/?keywords="
  const GoogleSearch: string := "https://www.google.com/search?q="

  /** A LinkedIn company-search link: its label and URL follow from the industry and the
      region it was made for. */
  datatype LinkedInLink = LinkedInLink(kind: Kind, industry: string, region: string) {
    /** The label: the industry, the words "companies in", then the region. */
    function Text(): (text: string)
      ensures Includes(text, industry) && Includes(text, region)
    {
      IncludesMiddle([], industry, " companies in " + region);
      IncludesMiddle(industry + " companies in ", region, []);
      assert [] + industry + (" companies in " + region) == industry + " companies in " + region;
      assert industry + " companies in " + region + [] == industry + " companies in " + region;
      industry + " companies in " + region
    }

    /** `url`: a company search with the industry and the region as keywords. */
    function Url(): (url: string)
      ensures CompanySearchPrefix <= url
      ensures Includes(url, EncodeUriComponent(industry + " " + region))
      ensures url[|CompanySearchPrefix|..]
        == EncodeUriComponent(industry + " " + region) + "&origin=SWITCH_SEARCH_VERTICAL"
    {
      var keywords := EncodeUriComponent(industry + " " + region);
      IncludesMiddle(CompanySearchPrefix, keywords, "&origin=SWITCH_SEARCH_VERTICAL");
      CompanySearchPrefix + keywords + "&origin=SWITCH_SEARCH_VERTICAL"
    }
  }

  /** A Google search link: its label is the query, its URL searches for it. */
  datatype GoogleLink = GoogleLink(kind: Kind, query: string) {
    function Text(): (text: string)
      ensures text == query
    {
      query
    }

    function Url(): (url: string)
      ensures GoogleSearch <= url
      ensures url[|GoogleSearch|..] == EncodeUriComponent(query)
    {
      GoogleSearch + EncodeUriComponent(query)
    }
  }

  // ---------------------------------------------------------------- LinkedIn links

  /** The random values one LinkedIn link consumes: the coin that chooses the industry
      list, and what `pickRandom` returned for the industry and the region. */
  datatype LinkedInDraw = LinkedInDraw(icp: bool, industry: string, region: string)

  /** What `pickRandom` can return: an industry of the list the coin chose, and a region
      of the Indian or of the global list. */
  predicate LinkedInDrawable(d: LinkedInDraw) {
    && (d.icp ==> d.industry in IcpIndustries)
    && (!d.icp ==> d.industry in CloudIndustries)
    && (d.region in IndiaRegions || d.region in GlobalRegions)
  }

  /** One iteration of `generateLinkedInDiscoveryLinks`. */
  function LinkedInLinkFor(d: LinkedInDraw): (link: LinkedInLink)
    ensures link.industry == d.industry && link.region == d.region
    ensures link.kind == IcpDiscovery <==> d.icp
    ensures link.kind == IcpDiscovery || link.kind == CloudDiscovery
  {
    LinkedInLink(if d.icp then IcpDiscovery else CloudDiscovery, d.industry, d.region)
  }

  /** The kind of a LinkedIn link names the list its industry came from, and its region
      is one of the listed regions. */
  lemma LinkedInLinkLists(d: LinkedInDraw)
    requires LinkedInDrawable(d)
    ensures var link := LinkedInLinkFor(d);
            && (link.kind == IcpDiscovery <==> link.industry in IcpIndustries)
            && (link.kind == CloudDiscovery <==> link.industry in CloudIndustries)
            && (link.region in IndiaRegions || link.region in GlobalRegions)
  {
    IndustryListsDisjoint();
  }

  /** The links of the first `n` iterations of `generateLinkedInDiscoveryLinks`. */
  function LinkedInLinksUpTo(draws: nat -> LinkedInDraw, n: nat): seq<LinkedInLink>
    decreases n
  {
    if n == 0 then [] else LinkedInLinksUpTo(draws, n - 1) + [LinkedInLinkFor(draws(n - 1))]
  }

  /** One link per iteration, the `i`-th made from the `i`-th draw. */
  lemma {:induction false} LinkedInLinksLayout(draws: nat -> LinkedInDraw, n: nat)
    ensures |LinkedInLinksUpTo(draws, n)| == n
    ensures forall i :: 0 <= i < n ==> LinkedInLinksUpTo(draws, n)[i] == LinkedInLinkFor(draws(i))
    decreases n
  {
    if n > 0 {
      LinkedInLinksLayout(draws, n - 1);
    }
  }

  /** `generateLinkedInDiscoveryLinks(count)`: one link per iteration. */
  method GenerateLinkedInDiscoveryLinks(count: int, draws: nat -> LinkedInDraw) returns (links: seq<LinkedInLink>)
    ensures links == LinkedInLinksUpTo(draws, if count > 0 then count else 0)
  {
    links := [];
    var n := if count > 0 then count else 0;
    for i := 0 to n
      invariant links == LinkedInLinksUpTo(draws, i)
    {
      links := links + [LinkedInLinkFor(draws(i))];
    }
  }

  // ---------------------------------------------------------------- Google links

  datatype Template = Template(tpl: string, kind: Kind)

  const Templates: seq<Template> := [
    Template("site:linkedin.com/company {industry} India", Icp),
    Template("site:linkedin.com/company {industry} company {region}", Icp),
    Template("\"linkedin.com/company\" {industry} startup India cloud", Icp),
    Template("site:linkedin.com/company {tech} startup India", Cloud),
    Template("\"linkedin.com/company\" {tech} company {region} cloud infrastructure", Cloud),
    Template("site:linkedin.com/company {tech} unicorn India", Cloud),
    Template("site:linkedin.com/in CTO {industry} India", Dm),
    Template("site:linkedin.com/in \"VP Engineering\" {tech} {region}", Dm),
    Template("site:linkedin.com/in \"Head of DevOps\" OR \"VP DevOps\" {region}", Dm),
    Template("{industry} company India AWS case study", Signal),
    Template("{industry} company India kubernetes cloud migration", Signal),
    Template("{tech} company hiring DevOps SRE India", Signal),
    Template("top {industry} startups India 2024 2025 cloud", Icp),
    Template("Indian {industry} companies using {cloud}", Cloud),
    Template("{industry} companies India series B C D funding", Cloud)]

  /** The templates are typed as plain searches, never as the LinkedIn discovery kinds. */
  lemma TemplateKinds()
    ensures forall i :: 0 <= i < |Templates| ==> Templates[i].kind != IcpDiscovery && Templates[i].kind != CloudDiscovery
  {
  }

  /** The random values one Google link consumes: what `pickRandom` returned for the
      template, the industry, the technology sector, the region and the cloud. */
  datatype GoogleDraw = GoogleDraw(template: Template, industry: string, tech: string, region: string, cloud: string)

  predicate GoogleDrawable(d: GoogleDraw) {
    && d.template in Templates
    && d.industry in IcpIndustries + CloudIndustries
    && d.tech in CloudIndustries
    && (d.region in IndiaRegions || d.region in GlobalRegions)
    && d.cloud in CloudNames
  }

  /** A chain of `.replace(pattern, value)` calls, applied in order. */
  function Substitute(tpl: string, subs: seq<(string, string)>): string
    decreases |subs|
  {
    if |subs| == 0 then tpl else Substitute(ReplaceFirst(tpl, subs[0].0, subs[0].1), subs[1..])
  }

  /** Replacements whose patterns do not occur leave the text as it was. */
  lemma {:induction false} SubstituteAbsent(tpl: string, subs: seq<(string, string)>)
    requires forall i :: 0 <= i < |subs| ==> IndexOf(tpl, subs[i].0).None?
    ensures Substitute(tpl, subs) == tpl
    decreases |subs|
  {
    if |subs| > 0 {
      SubstituteAbsent(tpl, subs[1..]);
    }
  }

  /** No opening brace, so no placeholder. */
  predicate NoBrace(s: string) {
    forall i :: 0 <= i < |s| ==> s[i] != '{'
  }

  /** A pattern starting with a brace is not found in a text without one. */
  lemma AbsentWithoutBrace(s: string, pat: string)
    requires NoBrace(s) && |pat| > 0 && pat[0] == '{'
    ensures IndexOf(s, pat).None?
  {
    forall k | 0 <= k <= |s| ensures !(pat <= s[k..]) {
      if k < |s| {
        assert s[k..][0] == s[k];
      }
    }
  }

  /** The only brace of `pre + ph + post` is the one that opens the placeholder `ph`. */
  lemma BraceOnlyAt(pre: string, ph: string, post: string)
    requires NoBrace(pre) && NoBrace(post) && |ph| > 0 && NoBrace(ph[1..])
    ensures forall k :: 0 <= k < |pre + ph + post| && k != |pre| ==> (pre + ph + post)[k] != '{'
  {
    var s := pre + ph + post;
    forall k | 0 <= k < |s| && k != |pre| ensures s[k] != '{' {
      if k < |pre| {
        assert s[k] == pre[k];
      } else if k < |pre| + |ph| {
        assert s[k] == ph[1..][k - |pre| - 1];
      } else {
        assert s[k] == post[k - |pre| - |ph|];
      }
    }
  }

  /** In `pre + ph + post` a brace pattern can only start where `ph` does. */
  lemma OnlyAtPlaceholder(pre: string, ph: string, post: string, pat: string)
    requires NoBrace(pre) && NoBrace(post) && |ph| > 0 && NoBrace(ph[1..])
    requires |pat| > 0 && pat[0] == '{'
    ensures forall k :: 0 <= k <= |pre + ph + post| && k != |pre| ==> !(pat <= (pre + ph + post)[k..])
  {
    var s := pre + ph + post;
    BraceOnlyAt(pre, ph, post);
    forall k | 0 <= k <= |s| && k != |pre| ensures !(pat <= s[k..]) {
      if k < |s| {
        assert s[k..][0] == s[k];
      }
    }
  }

  /** Replacing the placeholder puts the value in its place. */
  lemma ReplacePlaceholder(pre: string, ph: string, post: string, v: string)
    requires NoBrace(pre) && NoBrace(post) && |ph| > 0 && ph[0] == '{' && NoBrace(ph[1..])
    ensures ReplaceFirst(pre + ph + post, ph, v) == pre + v + post
  {
    var s := pre + ph + post;
    OnlyAtPlaceholder(pre, ph, post, ph);
    assert s[|pre|..] == ph + post;
    assert IndexOf(s, ph) == Some(|pre|);
    assert s[..|pre|] == pre && s[|pre| + |ph|..] == post;
  }

  /** Replacing another brace pattern, one that does not begin `ph + post`, changes
      nothing. */
  lemma ReplaceOther(pre: string, ph: string, post: string, pat: string, v: string)
    requires NoBrace(pre) && NoBrace(post) && |ph| > 0 && NoBrace(ph[1..])
    requires |pat| > 0 && pat[0] == '{' && !(pat <= ph + post)
    ensures ReplaceFirst(pre + ph + post, pat, v) == pre + ph + post
  {
    var s := pre + ph + post;
    OnlyAtPlaceholder(pre, ph, post, pat);
    assert s[|pre|..] == ph + post;
  }

  /** A chain of replacements whose patterns all start with a brace, over a template whose
      only placeholder is `subs[k].0`, with values that bring no brace: the placeholder is
      replaced by its value and the rest of the template is kept. */
  lemma {:induction false} SubstituteFills(pre: string, post: string, subs: seq<(string, string)>, k: nat)
    requires k < |subs|
    requires NoBrace(pre) && NoBrace(post)
    requires forall j :: 0 <= j < |subs| ==> |subs[j].0| > 0 && subs[j].0[0] == '{' && NoBrace(subs[j].1)
    requires NoBrace(subs[k].0[1..])
    requires forall j :: 0 <= j < k ==> !(subs[j].0 <= subs[k].0 + post)
    ensures Substitute(pre + subs[k].0 + post, subs) == pre + subs[k].1 + post
    decreases |subs|
  {
    var ph := subs[k].0;
    var s := pre + ph + post;
    var rest := subs[1..];
    assert Substitute(s, subs) == Substitute(ReplaceFirst(s, subs[0].0, subs[0].1), rest);
    if k == 0 {
      ReplacePlaceholder(pre, ph, post, subs[0].1);
      var filled := pre + subs[0].1 + post;
      assert NoBrace(filled);
      forall j | 0 <= j < |rest| ensures IndexOf(filled, rest[j].0).None? {
        AbsentWithoutBrace(filled, rest[j].0);
      }
      SubstituteAbsent(filled, rest);
    } else {
      ReplaceOther(pre, ph, post, subs[0].0, subs[0].1);
      assert rest[k - 1] == subs[k];
      SubstituteFills(pre, post, rest, k - 1);
    }
  }

  /** The four placeholders, in the order the replacements run, and a draw's values for
      them. */
  const Placeholders: seq<string> := ["{industry}", "{tech}", "{region}", "{cloud}"]

  function DrawValues(d: GoogleDraw): (vs: seq<string>)
    ensures |vs| == 4
  {
    [d.industry, d.tech, d.region, d.cloud]
  }

  /** A template with one placeholder and no other brace becomes its text with the
      draw's value in the placeholder's place, when the drawn values hold no brace. */
  lemma QueryForFills(d: GoogleDraw, pre: string, k: nat, post: string)
    requires k < 4 && d.template.tpl == pre + Placeholders[k] + post
    requires NoBrace(pre) && NoBrace(post)
    requires forall j :: 0 <= j < 4 ==> NoBrace(DrawValues(d)[j])
    ensures QueryFor(d) == pre + DrawValues(d)[k] + post
  {
    var subs := [("{industry}", d.industry), ("{tech}", d.tech), ("{region}", d.region), ("{cloud}", d.cloud)];
    forall j | 0 <= j < k ensures !(subs[j].0 <= subs[k].0 + post) {
      assert subs[j].0[1] != (subs[k].0 + post)[1];
    }
    assert forall j :: 0 <= j < 4 ==> subs[j].1 == DrawValues(d)[j];
    SubstituteFills(pre, post, subs, k);
  }

  /** The query of one Google draw: `tpl.replace('{industry}', industry)
      .replace('{tech}', tech).replace('{region}', region).replace('{cloud}', cloud)`. */
  function QueryFor(d: GoogleDraw): string {
    Substitute(d.template.tpl, [("{industry}", d.industry), ("{tech}", d.tech), ("{region}", d.region), ("{cloud}", d.cloud)])
  }

  /** The link one Google iteration would add. */
  function GoogleLinkFor(d: GoogleDraw): (link: GoogleLink)
    ensures link.query == QueryFor(d) && link.kind == d.template.kind
  {
    GoogleLink(d.template.kind, QueryFor(d))
  }

  /** A Google link has one of the template kinds. */
  lemma GoogleLinkKind(d: GoogleDraw)
    requires GoogleDrawable(d)
    ensures GoogleLinkFor(d).kind in {Icp, Cloud, Dm, Signal}
  {
    TemplateKinds();
    var i :| 0 <= i < |Templates| && Templates[i] == d.template;
  }

  function Queries(links: seq<GoogleLink>): (qs: seq<string>)
    ensures |qs| == |links|
    ensures forall i :: 0 <= i < |links| ==> qs[i] == links[i].query
  {
    seq(|links|, i requires 0 <= i < |links| => links[i].query)
  }

  /** The link of every iteration of `generateGoogleDiscoveryLinks`, before the check for
      a query already used. */
  function DrawnGoogleLinks(draws: nat -> GoogleDraw, n: nat): (drawn: seq<GoogleLink>)
    ensures |drawn| == n
    decreases n
  {
    if n == 0 then [] else DrawnGoogleLinks(draws, n - 1) + [GoogleLinkFor(draws(n - 1))]
  }

  lemma {:induction false} DrawnGoogleLinksAt(draws: nat -> GoogleDraw, n: nat)
    ensures forall k :: 0 <= k < n ==> DrawnGoogleLinks(draws, n)[k] == GoogleLinkFor(draws(k))
    decreases n
  {
    if n > 0 {
      DrawnGoogleLinksAt(draws, n - 1);
    }
  }

  /** The links kept, in order: a link whose query was already used is dropped, without
      a retry. */
  function KeepNewQueries(links: seq<GoogleLink>): (kept: seq<GoogleLink>)
    ensures |kept| <= |links|
    ensures |links| > 0 ==> |kept| > 0 && kept[0] == links[0]
    decreases |links|
  {
    if |links| == 0 then []
    else
      var prev := KeepNewQueries(links[..|links| - 1]);
      var link := links[|links| - 1];
      if link.query in Queries(prev) then prev else prev + [link]
  }

  /** At most one link per drawn link, pairwise distinct queries, every drawn query
      present, and only drawn links. */
  lemma {:induction false} KeepNewQueriesShape(links: seq<GoogleLink>)
    ensures |KeepNewQueries(links)| <= |links|
    ensures Distinct(Queries(KeepNewQueries(links)))
    ensures forall k :: 0 <= k < |links| ==> links[k].query in Queries(KeepNewQueries(links))
    ensures forall l :: l in KeepNewQueries(links) ==> l in links
    decreases |links|
  {
    if |links| > 0 {
      var init := links[..|links| - 1];
      var link := links[|links| - 1];
      KeepNewQueriesShape(init);
      var prev := KeepNewQueries(init);
      if link.query !in Queries(prev) {
        var r := prev + [link];
        assert Queries(r) == Queries(prev) + [link.query];
      }
      forall k | 0 <= k < |links| ensures links[k].query in Queries(KeepNewQueries(links)) {
        if k < |links| - 1 {
          assert links[k] == init[k];
        }
      }
    }
  }

  /** The links of the first `n` iterations of `generateGoogleDiscoveryLinks`. */
  function GoogleLinksUpTo(draws: nat -> GoogleDraw, n: nat): seq<GoogleLink> {
    KeepNewQueries(DrawnGoogleLinks(draws, n))
  }

  /** At most `n` links, pairwise distinct queries, the query of every draw present, and
      each link one of the drawn links. */
  lemma GoogleLinksShape(draws: nat -> GoogleDraw, n: nat)
    ensures |GoogleLinksUpTo(draws, n)| <= n
    ensures Distinct(Queries(GoogleLinksUpTo(draws, n)))
    ensures forall k :: 0 <= k < n ==> QueryFor(draws(k)) in Queries(GoogleLinksUpTo(draws, n))
    ensures forall l :: l in GoogleLinksUpTo(draws, n) ==> l in DrawnGoogleLinks(draws, n)
  {
    var drawn := DrawnGoogleLinks(draws, n);
    var kept := KeepNewQueries(drawn);
    KeepNewQueriesShape(drawn);
    DrawnGoogleLinksAt(draws, n);
    forall k | 0 <= k < n ensures QueryFor(draws(k)) in Queries(kept) {
      assert drawn[k].query == QueryFor(draws(k));
    }
  }

  /** An iteration that draws a query already used adds nothing. */
  lemma RepeatedQueryAddsNothing(draws: nat -> GoogleDraw, n: nat)
    requires n > 0
    requires exists k :: 0 <= k < n - 1 && QueryFor(draws(k)) == QueryFor(draws(n - 1))
    ensures GoogleLinksUpTo(draws, n) == GoogleLinksUpTo(draws, n - 1)
  {
    GoogleLinksShape(draws, n - 1);
    assert DrawnGoogleLinks(draws, n)[..n - 1] == DrawnGoogleLinks(draws, n - 1);
  }

  /** `generateGoogleDiscoveryLinks(count)`. */
  method GenerateGoogleDiscoveryLinks(count: int, draws: nat -> GoogleDraw) returns (links: seq<GoogleLink>)
    ensures links == GoogleLinksUpTo(draws, if count > 0 then count else 0)
  {
    links := [];
    var used: set<string> := {};
    var n := if count > 0 then count else 0;
    for i := 0 to n
      invariant links == KeepNewQueries(DrawnGoogleLinks(draws, i))
      invariant forall q :: q in used <==> q in Queries(links)
    {
      var link := GoogleLinkFor(draws(i));
      assert DrawnGoogleLinks(draws, i + 1)[..i] == DrawnGoogleLinks(draws, i);
      if link.query !in used {
        used := used + {link.query};
        assert Queries(links + [link]) == Queries(links) + [link.query];
        links := links + [link];
      }
    }
  }

  // ---------------------------------------------------------------- decision makers

  const PeopleSearchPrefix: string := "https://www.linkedin.com/search/results/people/?keywords="

  /** One entry of `generateDMSearchLinks(company)`: a LinkedIn people search for the
      title at the company, and a Google search for profiles with that title. */
  datatype DmLink = DmLink(title: string, company: string) {
    function LinkedIn(): (url: string)
      ensures PeopleSearchPrefix <= url
      ensures Includes(url, EncodeUriComponent(title))
      ensures Includes(url, EncodeUriComponent(company))
    {
      var head := PeopleSearchPrefix + EncodeUriComponent(title) + "&company=";
      var tail := "&origin=FACETED_SEARCH";
      IncludesMiddle(PeopleSearchPrefix, EncodeUriComponent(title), "&company=" + EncodeUriComponent(company) + tail);
      assert PeopleSearchPrefix + EncodeUriComponent(title) + ("&company=" + EncodeUriComponent(company) + tail)
          == head + EncodeUriComponent(company) + tail;
      IncludesMiddle(head, EncodeUriComponent(company), tail);
      head + EncodeUriComponent(company) + tail
    }

    function Google(): (url: string)
      ensures GoogleSearch <= url
      ensures Includes(url, EncodeUriComponent(title))
      ensures Includes(url, EncodeUriComponent(company))
    {
      var head := GoogleSearch + "site:linkedin.com/in+\"";
      var mid := "\"+";
      IncludesMiddle(head, EncodeUriComponent(title), mid + EncodeUriComponent(company));
      assert head + EncodeUriComponent(title) + (mid + EncodeUriComponent(company))
          == head + EncodeUriComponent(title) + mid + EncodeUriComponent(company);
      IncludesMiddle(head + EncodeUriComponent(title) + mid, EncodeUriComponent(company), []);
      assert head + EncodeUriComponent(title) + mid + EncodeUriComponent(company) + []
          == head + EncodeUriComponent(title) + mid + EncodeUriComponent(company);
      head + EncodeUriComponent(title) + mid + EncodeUriComponent(company)
    }
  }

  /** One link per title, in the titles' order. */
  function DmLinks(company: string, titles: seq<string>): (links: seq<DmLink>)
    ensures |links| == |titles|
    ensures forall i :: 0 <= i < |links| ==> links[i] == DmLink(titles[i], company)
  {
    seq(|titles|, i requires 0 <= i < |titles| => DmLink(titles[i], company))
  }

  /** `generateDMSearchLinks(company)`: five links for five different titles of the
      list (`DmLinksListed` adds that they are the list's and for the company). */
  function GenerateDmSearchLinks(company: string, picks: seq<nat>): (links: seq<DmLink>)
    ensures |links| == 5
    ensures forall i, j :: 0 <= i < j < 5 ==> links[i].title != links[j].title
  {
    DmTitlesDistinct();
    PickedDmLinks(company, DmTitles, 5, picks)
  }

  /** The links for `n` titles picked from a list without repeats. */
  function PickedDmLinks(company: string, titles: seq<string>, n: nat, picks: seq<nat>): (links: seq<DmLink>)
    requires Distinct(titles) && n <= |titles|
    ensures |links| == n
    ensures forall i :: 0 <= i < n ==> links[i].company == company
    ensures forall i, j :: 0 <= i < j < n ==> links[i].title != links[j].title
  {
    var picked := PickSome(titles, n, picks);
    PickSomeDistinct(titles, n, picks);
    DmLinksDistinct(company, picked);
    DmLinks(company, picked)
  }

  /** Links made from different titles have different titles. */
  lemma DmLinksDistinct(company: string, titles: seq<string>)
    requires Distinct(titles)
    ensures forall i, j :: 0 <= i < j < |titles| ==> DmLinks(company, titles)[i].title != DmLinks(company, titles)[j].title
  {
  }

  /** Every link is for the company asked about, under a title of the list. */
  lemma DmLinksListed(company: string, picks: seq<nat>)
    ensures forall l :: l in GenerateDmSearchLinks(company, picks) ==> l.company == company && l.title in DmTitles
  {
    DmTitlesDistinct();
    PickedDmLinksListed(company, DmTitles, 5, picks);
  }

  lemma PickedDmLinksListed(company: string, titles: seq<string>, n: nat, picks: seq<nat>)
    requires Distinct(titles) && n <= |titles|
    ensures forall l :: l in PickedDmLinks(company, titles, n, picks) ==> l.company == company && l.title in titles
  {
    DmLinksTitles(company, PickSome(titles, n, picks));
    PickSomeMembers(titles, n, picks);
  }

  /** Each link is for the company, under one of the titles it was made from. */
  lemma DmLinksTitles(company: string, titles: seq<string>)
    ensures forall l :: l in DmLinks(company, titles) ==> l.company == company && l.title in titles
  {
    forall l | l in DmLinks(company, titles) ensures l.company == company && l.title in titles {
      var i :| 0 <= i < |titles| && DmLinks(company, titles)[i] == l;
    }
  }


  // ---------------------------------------------------------------- suggestions

  /** A link of either generator, as the sections hold them. */
  datatype Link = FromLinkedIn(linkedIn: LinkedInLink) | FromGoogle(google: GoogleLink) {
    function Kind(): Kind {
      match this
      case FromLinkedIn(l) => l.kind
      case FromGoogle(g) => g.kind
    }
  }

  /** The four themed sections, with their fixed titles and descriptions. */
  datatype Theme = IcpTheme | CloudTheme | DmTheme | SignalTheme {
    function Title(): string {
      match this
      case IcpTheme => "Discover ICP-Similar Companies"
      case CloudTheme => "Discover High-Fit Cloud Targets"
      case DmTheme => "Find Decision Makers"
      case SignalTheme => "Cloud Spend Signals"
    }

    function Description(): string {
      match this
      case IcpTheme => "Find companies in FMCG, Beverages, Media, D2C matching your ICP"
      case CloudTheme => "Find companies with significant cloud infrastructure & spend"
      case DmTheme => "Search for CTOs, VP Engineering, DevOps leaders at target companies"
      case SignalTheme => "Find companies actively investing in cloud, hiring DevOps/SRE"
    }
  }

  datatype Section = Section(theme: Theme, links: seq<Link>)

  predicate IsIcpLink(l: Link) { l.Kind() == Icp || l.Kind() == IcpDiscovery }
  predicate IsCloudLink(l: Link) { l.Kind() == Cloud || l.Kind() == CloudDiscovery }
  predicate IsDmLink(l: Link) { l.Kind() == Dm }
  predicate IsSignalLink(l: Link) { l.Kind() == Signal }

  function WrapLinkedIn(links: seq<LinkedInLink>): (r: seq<Link>)
    ensures |r| == |links| && forall i :: 0 <= i < |r| ==> r[i] == FromLinkedIn(links[i])
  {
    seq(|links|, i requires 0 <= i < |links| => FromLinkedIn(links[i]))
  }

  function WrapGoogle(links: seq<GoogleLink>): (r: seq<Link>)
    ensures |r| == |links| && forall i :: 0 <= i < |r| ==> r[i] == FromGoogle(links[i])
  {
    seq(|links|, i requires 0 <= i < |links| => FromGoogle(links[i]))
  }

  /** `arr.slice(0, n)` for `n >= 0`. */
  function Take(s: seq<Link>, n: nat): (r: seq<Link>)
    ensures |r| == if |s| < n then |s| else n
    ensures r <= s
  {
    SlicePrefix(s, Int(n));
    Slice(s, Int(0), Int(n))
  }

  /** LinkedIn links come before Google links. */
  predicate LinkedInFirst(links: seq<Link>) {
    forall i, j :: 0 <= i < j < |links| && links[j].FromLinkedIn? ==> links[i].FromLinkedIn?
  }

  /** A prefix of LinkedIn-only links followed by Google-only links keeps that order. */
  lemma LinkedInFirstSplit(a: seq<Link>, b: seq<Link>, n: nat)
    requires forall i :: 0 <= i < |a| ==> a[i].FromLinkedIn?
    requires forall i :: 0 <= i < |b| ==> b[i].FromGoogle?
    ensures LinkedInFirst(Take(a + b, n))
  {
    var r := Take(a + b, n);
    forall i, j | 0 <= i < j < |r| && r[j].FromLinkedIn? ensures r[i].FromLinkedIn? {
      assert r[j] == (a + b)[j] && r[i] == (a + b)[i];
    }
  }

  /** `links` is the first `cap` links of `pool`, or all of them when there are fewer. */
  predicate FirstOf(links: seq<Link>, pool: seq<Link>, cap: nat) {
    links <= pool && |links| == if |pool| < cap then |pool| else cap
  }

  /** The four sections built from the two generators' links: each holds the first links
      of its theme, up to 8 for the two discovery themes (LinkedIn links, then Google
      ones) and up to 6 for the two Google-only themes. */
  function Sections(linkedIn: seq<LinkedInLink>, google: seq<GoogleLink>): (sections: seq<Section>)
    ensures |sections| == 4
    ensures sections[0].theme == IcpTheme && sections[1].theme == CloudTheme
    ensures sections[2].theme == DmTheme && sections[3].theme == SignalTheme
    ensures |sections[0].links| <= 8 && |sections[1].links| <= 8
    ensures |sections[2].links| <= 6 && |sections[3].links| <= 6
    ensures FirstOf(sections[0].links, Filter(WrapLinkedIn(linkedIn) + WrapGoogle(google), IsIcpLink), 8)
    ensures FirstOf(sections[1].links, Filter(WrapLinkedIn(linkedIn) + WrapGoogle(google), IsCloudLink), 8)
    ensures FirstOf(sections[2].links, Filter(WrapGoogle(google), IsDmLink), 6)
    ensures FirstOf(sections[3].links, Filter(WrapGoogle(google), IsSignalLink), 6)
  {
    var li := WrapLinkedIn(linkedIn);
    var g := WrapGoogle(google);
    [
      Section(IcpTheme, Take(Filter(li + g, IsIcpLink), 8)),
      Section(CloudTheme, Take(Filter(li + g, IsCloudLink), 8)),
      Section(DmTheme, Take(Filter(g, IsDmLink), 6)),
      Section(SignalTheme, Take(Filter(g, IsSignalLink), 6))
    ]
  }

  /** The first `n` links a filter keeps are kept links of the input. */
  lemma TakeFiltered(s: seq<Link>, keep: Link -> bool, n: nat)
    ensures forall l :: l in Take(Filter(s, keep), n) ==> keep(l) && l in s
  {
    var f := Filter(s, keep);
    forall l | l in Take(f, n) ensures keep(l) && l in s {
      var i :| 0 <= i < |Take(f, n)| && Take(f, n)[i] == l;
      assert l == f[i];
    }
  }

  lemma WrappedGoogle(google: seq<GoogleLink>)
    ensures forall l :: l in WrapGoogle(google) ==> l.FromGoogle?
  {
  }

  /** Each section holds only links of its theme, and the decision-maker and signal
      sections only Google links. */
  lemma SectionsContents(linkedIn: seq<LinkedInLink>, google: seq<GoogleLink>)
    ensures var sections := Sections(linkedIn, google);
            && (forall l :: l in sections[0].links ==> IsIcpLink(l))
            && (forall l :: l in sections[1].links ==> IsCloudLink(l))
            && (forall l :: l in sections[2].links ==> IsDmLink(l) && l.FromGoogle?)
            && (forall l :: l in sections[3].links ==> IsSignalLink(l) && l.FromGoogle?)
  {
    var li := WrapLinkedIn(linkedIn);
    var g := WrapGoogle(google);
    TakeFiltered(li + g, IsIcpLink, 8);
    TakeFiltered(li + g, IsCloudLink, 8);
    TakeFiltered(g, IsDmLink, 6);
    TakeFiltered(g, IsSignalLink, 6);
    WrappedGoogle(google);
  }

  /** The two discovery sections list LinkedIn links first. */
  lemma SectionsOrder(linkedIn: seq<LinkedInLink>, google: seq<GoogleLink>)
    ensures var sections := Sections(linkedIn, google);
            LinkedInFirst(sections[0].links) && LinkedInFirst(sections[1].links)
  {
    var li := WrapLinkedIn(linkedIn);
    var g := WrapGoogle(google);
    FilteredOrder(li, g, IsIcpLink, 8);
    FilteredOrder(li, g, IsCloudLink, 8);
  }

  /** Filtering LinkedIn links followed by Google links and taking a prefix keeps the
      LinkedIn links first. */
  lemma FilteredOrder(li: seq<Link>, g: seq<Link>, keep: Link -> bool, n: nat)
    requires forall i :: 0 <= i < |li| ==> li[i].FromLinkedIn?
    requires forall i :: 0 <= i < |g| ==> g[i].FromGoogle?
    ensures LinkedInFirst(Take(Filter(li + g, keep), n))
  {
    FilterConcat(li, g, keep);
    var a := Filter(li, keep);
    var b := Filter(g, keep);
    forall i | 0 <= i < |a| ensures a[i].FromLinkedIn? {
      var k :| 0 <= k < |li| && li[k] == a[i];
    }
    forall i | 0 <= i < |b| ensures b[i].FromGoogle? {
      var k :| 0 <= k < |g| && g[k] == b[i];
    }
    LinkedInFirstSplit(a, b, n);
  }

  const Note: string := "These links are randomly generated on each refresh. Click to discover new companies on LinkedIn and Google."

  datatype Suggestions = Suggestions(note: string, sections: seq<Section>)

  /** `generateDiscoverySuggestions()`: eight LinkedIn links and twelve Google
      iterations, sorted into four sections. */
  method GenerateDiscoverySuggestions(linkedInDraws: nat -> LinkedInDraw, googleDraws: nat -> GoogleDraw)
    returns (r: Suggestions)
    ensures r.note == Note
    ensures r.sections == Sections(LinkedInLinksUpTo(linkedInDraws, 8), GoogleLinksUpTo(googleDraws, 12))
  {
    var linkedInLinks := GenerateLinkedInDiscoveryLinks(8, linkedInDraws);
    var googleLinks := GenerateGoogleDiscoveryLinks(12, googleDraws);
    r := Suggestions(Note, Sections(linkedInLinks, googleLinks));
  }
}
