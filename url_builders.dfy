/** `buildCompanyUrls` and `buildLinkedInSearchUrls` of `server/brightdata.js`. */
module LinkedInUrls {
  import opened Wrappers
  import opened JsText
  import opened SeqUtils

  const CompanyUrlPrefix: string := "https://www.linkedin.com/company/"

  // ---------------------------------------------------------------- slugs

  predicate IsHyphen(c: char) { c == '-' }

  /** What survives `.replace(/[^a-z0-9\s-]/g, '')`. */
  predicate IsSlugSource(c: char) {
    IsAsciiLower(c) || IsDigit(c) || IsJsSpace(c) || c == '-'
  }

  /** The characters a finished slug may hold: `[a-z0-9-]`. */
  predicate IsSlugChar(c: char) {
    IsAsciiLower(c) || IsDigit(c) || c == '-'
  }

  /** No two consecutive hyphens. */
  predicate NoDoubleHyphen(s: string) {
    forall i :: 0 <= i < |s| - 1 ==> !(s[i] == '-' && s[i + 1] == '-')
  }


  /** `.replace(/\s+/g, '-')`: every maximal run of white space becomes one hyphen. */
  function HyphenateSpaces(s: string): (r: string)
    ensures |r| <= |s|
    ensures forall i :: 0 <= i < |r| ==> !IsJsSpace(r[i])
    ensures forall i :: 0 <= i < |r| ==> r[i] == '-' || r[i] in s
    decreases |s|
  {
    if |s| == 0 then ""
    else if IsJsSpace(s[0]) then "-" + HyphenateSpaces(s[LeadingCount(s, IsJsSpace)..])
    else [s[0]] + HyphenateSpaces(s[1..])
  }

  /** After hyphenation no white space is left; the other characters are kept. */
  lemma {:induction false} HyphenateChars(s: string)
    requires forall i :: 0 <= i < |s| ==> IsSlugSource(s[i])
    ensures forall i :: 0 <= i < |HyphenateSpaces(s)| ==> IsSlugChar(HyphenateSpaces(s)[i])
    decreases |s|
  {
    if |s| > 0 {
      if IsJsSpace(s[0]) {
        HyphenateChars(s[LeadingCount(s, IsJsSpace)..]);
      } else {
        HyphenateChars(s[1..]);
      }
    }
  }

  /** `.replace(/-+/g, '-')`: every maximal run of hyphens becomes one. */
  function CollapseHyphens(s: string): (r: string)
    ensures |r| <= |s|
    ensures forall i :: 0 <= i < |r| ==> r[i] in s
    decreases |s|
  {
    if |s| == 0 then ""
    else if s[0] == '-' then "-" + CollapseHyphens(s[LeadingCount(s, IsHyphen)..])
    else [s[0]] + CollapseHyphens(s[1..])
  }

  /** Collapsing leaves no double hyphen, keeps the first character a hyphen exactly when
      it was one, and introduces no character that was not there. */
  lemma {:induction false} CollapseShape(s: string, allowed: char -> bool)
    requires forall i :: 0 <= i < |s| ==> allowed(s[i])
    ensures var r := CollapseHyphens(s);
            && NoDoubleHyphen(r)
            && (|s| > 0 ==> |r| > 0 && (r[0] == '-' <==> s[0] == '-'))
            && forall i :: 0 <= i < |r| ==> allowed(r[i])
    decreases |s|
  {
    if |s| > 0 {
      var n := if s[0] == '-' then LeadingCount(s, IsHyphen) else 1;
      var rest := s[n..];
      assert forall i :: 0 <= i < |rest| ==> rest[i] == s[n + i];
      CollapseShape(rest, allowed);
      var tail := CollapseHyphens(rest);
      if s[0] == '-' {
        assert n < |s| ==> !IsHyphen(s[n]);
      }
      assert |rest| > 0 ==> |tail| > 0 && (tail[0] == '-' <==> rest[0] == '-');
      assert CollapseHyphens(s) == [s[0]] + tail;
    }
  }

  /** The slug of one company name: lower-cased, stripped to `[a-z0-9]`, white space
      and hyphens, white-space runs turned into hyphens, hyphen runs collapsed. */
  function Slug(name: string): (slug: string)
    ensures forall i :: 0 <= i < |slug| ==> IsSlugChar(slug[i])
    ensures NoDoubleHyphen(slug)
  {
    var kept := Filter(Lower(name), IsSlugSource);
    HyphenateChars(kept);
    var hyphenated := HyphenateSpaces(kept);
    CollapseShape(hyphenated, IsSlugChar);
    CollapseHyphens(hyphenated)
  }

  /** A name that is already a slug is its own slug. */
  lemma SlugIdempotent(name: string)
    ensures Slug(Slug(name)) == Slug(name)
  {
    var s := Slug(name);
    LowerOfSlug(s);
    FilterAll(s, IsSlugSource);
    HyphenateWithoutSpaces(s);
    CollapseWithoutDoubles(s);
  }

  lemma LowerOfSlug(s: string)
    requires forall i :: 0 <= i < |s| ==> IsSlugChar(s[i])
    ensures Lower(s) == s
  {
  }

  lemma {:induction false} FilterAll(s: string, keep: char -> bool)
    requires forall i :: 0 <= i < |s| ==> keep(s[i])
    ensures Filter(s, keep) == s
    decreases |s|
  {
    if |s| > 0 {
      FilterAll(s[1..], keep);
    }
  }

  lemma {:induction false} HyphenateWithoutSpaces(s: string)
    requires forall i :: 0 <= i < |s| ==> !IsJsSpace(s[i])
    ensures HyphenateSpaces(s) == s
    decreases |s|
  {
    if |s| > 0 {
      HyphenateWithoutSpaces(s[1..]);
    }
  }

  lemma {:induction false} CollapseWithoutDoubles(s: string)
    requires NoDoubleHyphen(s)
    ensures CollapseHyphens(s) == s
    decreases |s|
  {
    if |s| > 0 {
      CollapseWithoutDoubles(s[1..]);
      if s[0] == '-' {
        assert LeadingCount(s, IsHyphen) == 1 by {
          assert |s| == 1 || s[1] != '-';
          assert LeadingCount(s[1..], IsHyphen) == 0;
        }
      }
    }
  }

  // ---------------------------------------------------------------- slug content

  /** The letters and digits a slug is made of. */
  predicate IsSlugWordChar(c: char) { IsAsciiLower(c) || IsDigit(c) }

  /** A character that neither `\s+` nor `-+` matches: both replacements keep it. */
  predicate IsKeptChar(c: char) { !IsJsSpace(c) && c != '-' }

  predicate IsNotHyphen(c: char) { c != '-' }

  /** A leading run that the filter drops changes nothing. */
  lemma {:induction false} FilterSkipRun(s: string, n: nat, keep: char -> bool)
    requires n <= |s|
    requires forall i :: 0 <= i < n ==> !keep(s[i])
    ensures Filter(s, keep) == Filter(s[n..], keep)
    decreases n
  {
    if n > 0 {
      assert s[1..][n - 1..] == s[n..];
      FilterSkipRun(s[1..], n - 1, keep);
    }
  }

  /** Two conditions that agree on every element select the same elements. */
  lemma {:induction false} FilterAgreeOn(s: string, p: char -> bool, q: char -> bool)
    requires forall i :: 0 <= i < |s| ==> p(s[i]) == q(s[i])
    ensures Filter(s, p) == Filter(s, q)
    decreases |s|
  {
    if |s| > 0 {
      FilterAgreeOn(s[1..], p, q);
    }
  }

  /** Filtering twice is filtering by both conditions. */
  lemma {:induction false} FilterTwice(s: string, p: char -> bool, q: char -> bool, both: char -> bool)
    requires forall c :: both(c) == (p(c) && q(c))
    ensures Filter(Filter(s, p), q) == Filter(s, both)
    decreases |s|
  {
    if |s| > 0 {
      FilterTwice(s[1..], p, q, both);
      var rest := Filter(s[1..], p);
      if p(s[0]) {
        assert ([s[0]] + rest)[1..] == rest;
      }
    }
  }

  /** `.replace(/\s+/g, '-')` keeps every character that is neither white space nor a
      hyphen, in order: only white space is replaced, and only by a hyphen. */
  lemma {:induction false} HyphenateKeeps(s: string)
    ensures Filter(HyphenateSpaces(s), IsKeptChar) == Filter(s, IsKeptChar)
    decreases |s|
  {
    if |s| > 0 {
      if IsJsSpace(s[0]) {
        var n := LeadingCount(s, IsJsSpace);
        FilterSkipRun(s, n, IsKeptChar);
        HyphenateKeeps(s[n..]);
        var tail := HyphenateSpaces(s[n..]);
        assert ("-" + tail)[1..] == tail;
      } else {
        HyphenateKeeps(s[1..]);
        var tail := HyphenateSpaces(s[1..]);
        assert ([s[0]] + tail)[1..] == tail;
      }
    }
  }

  /** `.replace(/-+/g, '-')` keeps every character that is not a hyphen, in order. */
  lemma {:induction false} CollapseKeeps(s: string)
    ensures Filter(CollapseHyphens(s), IsNotHyphen) == Filter(s, IsNotHyphen)
    decreases |s|
  {
    if |s| > 0 {
      if s[0] == '-' {
        var n := LeadingCount(s, IsHyphen);
        FilterSkipRun(s, n, IsNotHyphen);
        CollapseKeeps(s[n..]);
        var tail := CollapseHyphens(s[n..]);
        assert ("-" + tail)[1..] == tail;
      } else {
        CollapseKeeps(s[1..]);
        var tail := CollapseHyphens(s[1..]);
        assert ([s[0]] + tail)[1..] == tail;
      }
    }
  }

  /** Leaving the hyphens aside, a slug is exactly the letters and digits of the lower-cased
      name, in order: every other character is dropped and nothing is invented. */
  lemma SlugKeepsLettersAndDigits(name: string)
    ensures Filter(Slug(name), IsNotHyphen) == Filter(Lower(name), IsSlugWordChar)
  {
    var lower := Lower(name);
    var kept := Filter(lower, IsSlugSource);
    var hyphenated := HyphenateSpaces(kept);
    assert Slug(name) == CollapseHyphens(hyphenated);
    calc {
      Filter(CollapseHyphens(hyphenated), IsNotHyphen);
      == { CollapseKeeps(hyphenated); }
      Filter(hyphenated, IsNotHyphen);
      == { FilterAgreeOn(hyphenated, IsNotHyphen, IsKeptChar); }
      Filter(hyphenated, IsKeptChar);
      == { HyphenateKeeps(kept); }
      Filter(kept, IsKeptChar);
      == { FilterAgreeOn(kept, IsKeptChar, IsSlugWordChar); }
      Filter(kept, IsSlugWordChar);
      == { FilterTwice(lower, IsSlugSource, IsSlugWordChar, IsSlugWordChar); }
      Filter(lower, IsSlugWordChar);
    }
  }

  /** `buildCompanyUrls(companyNames)`. */
  function BuildCompanyUrls(names: seq<string>): (urls: seq<string>)
    ensures |urls| == |names|
    ensures forall i :: 0 <= i < |urls| ==>
      CompanyUrlPrefix <= urls[i] && urls[i][|CompanyUrlPrefix|..] == Slug(names[i])
  {
    seq(|names|, i requires 0 <= i < |names| => CompanyUrlPrefix + Slug(names[i]))
  }

  // ---------------------------------------------------------------- search URLs

  const DefaultRegions: seq<string> := ["India"]

  /** The company-search URL for one industry and one region. */
  function SearchUrl(industry: string, region: string): string {
    "https://www.linkedin.com/search/results/companies/?keywords=" + EncodeUriComponent(industry)
    + "&origin=SWITCH_SEARCH_VERTICAL&geo=" + EncodeUriComponent(region)
  }

  /** The URLs `url` makes for one industry, one per region in order. */
  function Row(industry: string, regions: seq<string>, url: (string, string) -> string): (row: seq<string>)
    ensures |row| == |regions|
    ensures forall j :: 0 <= j < |regions| ==> row[j] == url(industry, regions[j])
  {
    seq(|regions|, j requires 0 <= j < |regions| => url(industry, regions[j]))
  }

  lemma RowSnoc(industry: string, regions: seq<string>, url: (string, string) -> string, j: nat)
    requires j < |regions|
    ensures Row(industry, regions[..j + 1], url) == Row(industry, regions[..j], url) + [url(industry, regions[j])]
  {
    var a := Row(industry, regions[..j + 1], url);
    var b := Row(industry, regions[..j], url) + [url(industry, regions[j])];
    assert |a| == |b|;
    forall k | 0 <= k < |a| ensures a[k] == b[k] {
      assert regions[..j + 1][k] == regions[k];
    }
  }

  /** The URLs for the industries, one per industry and region, industry by industry. */
  function Grid(industries: seq<string>, regions: seq<string>, url: (string, string) -> string): seq<string>
    decreases |industries|
  {
    if |industries| == 0 then []
    else Grid(industries[..|industries| - 1], regions, url) + Row(industries[|industries| - 1], regions, url)
  }

  /** Where position `i * w + j` of a grid `w` wide falls, for row `i <= n`. */
  lemma GridIndex(i: nat, j: nat, n: nat, w: nat)
    requires i <= n && j < w
    ensures (n + 1) * w == n * w + w
    ensures i < n ==> i * w + j < n * w
    ensures i == n ==> i * w + j == n * w + j
  {
    if i < n {
      assert i * w + w <= n * w by {
        assert (i + 1) * w <= n * w;
      }
    }
  }

  /** Cell `(i, j)` of a grid of `n` rows extended by one more row, at position `k`. */
  lemma GridCell(front: seq<string>, row: seq<string>, k: nat, i: nat, j: nat, n: nat, w: nat)
    requires |front| == n * w && |row| == w
    requires i <= n && j < w && k == i * w + j
    ensures k < |front + row|
    ensures i < n ==> k < |front| && (front + row)[k] == front[k]
    ensures i == n ==> k == |front| + j && (front + row)[k] == row[j]
  {
    GridIndex(i, j, n, w);
  }

  /** One URL per pair, at position `i * |regions| + j`. */
  lemma {:induction false} GridLayout(industries: seq<string>, regions: seq<string>, url: (string, string) -> string)
    ensures |Grid(industries, regions, url)| == |industries| * |regions|
    ensures forall i, j :: 0 <= i < |industries| && 0 <= j < |regions| ==>
      Grid(industries, regions, url)[i * |regions| + j] == url(industries[i], regions[j])
    decreases |industries|
  {
    if |industries| > 0 {
      var n := |industries| - 1;
      var w := |regions|;
      var init := industries[..n];
      GridLayout(init, regions, url);
      var front := Grid(init, regions, url);
      var urls := front + Row(industries[n], regions, url);
      if w > 0 {
        GridIndex(0, 0, n, w);
      } else {
        assert (n + 1) * w == 0;
      }
      assert |urls| == (n + 1) * w;
      forall i, j | 0 <= i < |industries| && 0 <= j < w
        ensures urls[i * w + j] == url(industries[i], regions[j])
      {
        GridCell(front, Row(industries[n], regions, url), i * w + j, i, j, n, w);
        if i < n {
          assert init[i] == industries[i];
        }
      }
    }
  }

  /** `buildLinkedInSearchUrls(industries, regions = ['India'])`: the grid of search URLs,
      which `GridLayout` lays out one per industry and region. */
  method BuildLinkedInSearchUrls(industries: seq<string>, regionsArg: Option<seq<string>>) returns (urls: seq<string>)
    ensures urls == Grid(industries, regionsArg.GetOr(DefaultRegions), SearchUrl)
  {
    urls := PushGrid(industries, regionsArg.GetOr(DefaultRegions), SearchUrl);
  }

  /** The nested loops of `buildLinkedInSearchUrls`: for each industry, for each region,
      push the URL for the pair. */
  method PushGrid(industries: seq<string>, regions: seq<string>, url: (string, string) -> string) returns (urls: seq<string>)
    ensures urls == Grid(industries, regions, url)
  {
    urls := [];
    for i := 0 to |industries|
      invariant urls == Grid(industries[..i], regions, url)
    {
      var industry := industries[i];
      ghost var before := urls;
      for j := 0 to |regions|
        invariant urls == before + Row(industry, regions[..j], url)
      {
        RowSnoc(industry, regions, url, j);
        urls := urls + [url(industry, regions[j])];
      }
      assert regions[..|regions|] == regions;
      assert industries[..i + 1][..i] == industries[..i];
    }
    assert industries[..|industries|] == industries;
  }
}
