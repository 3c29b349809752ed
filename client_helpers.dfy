/** The browser's static-data helpers of `public/app.js`: the Fisher-Yates `shuffle`,
    the static query `getCompaniesStatic`, the counts of `getStatsStatic`, `truncate`,
    and the dedup-by-name of `buildVerifyGrid`. `Math.random` is a supplied function. */
module ClientHelpers {
  import opened Wrappers
  import opened JsText
  import opened SeqUtils
  import opened Records
  import Routes

  // ---------------------------------------------------------------- shuffle

  /** `shuffle(arr)`: copies the array, then for `i` from the last index down to 1 swaps
      `a[i]` with `a[j]`, where `j = floor(random * (i + 1))`; `rnd(i) % (i + 1)` is any
      such `j`. The input is a value and is left as it was. */
  method Shuffle<T>(arr: seq<T>, rnd: nat -> nat) returns (r: seq<T>)
    ensures |r| == |arr|
    ensures multiset(r) == multiset(arr)
  {
    var a := new T[|arr|](k requires 0 <= k < |arr| => arr[k]);
    assert a[..] == arr;
    var i := a.Length - 1;
    while i > 0
      invariant -1 <= i < a.Length
      invariant multiset(a[..]) == multiset(arr)
      decreases i
    {
      var j := rnd(i) % (i + 1);
      assert 0 <= j <= i;
      SwapPreservesMultiset(a[..], i, j);
      a[i], a[j] := a[j], a[i];
      i := i - 1;
    }
    r := a[..];
  }

  lemma SwapPreservesMultiset<T>(s: seq<T>, i: nat, j: nat)
    requires i < |s| && j < |s|
    ensures multiset(s[i := s[j]][j := s[i]]) == multiset(s)
  {
  }

  // ---------------------------------------------------------------- static query

  /** The browser's search: company, industry and provider names, not headquarters. */
  predicate StaticSearchHit(c: Company, q: string) {
    Includes(Lower(c.company), q) || Includes(Lower(c.industry), q) || Includes(Lower(c.cloudProviders), q)
  }

  /** Which records `getCompaniesStatic` returns, as one condition: region and
      complexity are compared exactly, with case. */
  predicate StaticSelected(c: Company, category: string, search: string, region: string, complexity: string) {
    && c.category == category
    && (search == "" || StaticSearchHit(c, Lower(search)))
    && (region == "" || c.region == region)
    && (complexity == "" || c.cloudComplexity == complexity)
  }

  /** The filter chain of `getCompaniesStatic`, before the shuffle. */
  function StaticMatches(db: seq<Company>, category: string, search: string, region: string, complexity: string): (r: seq<Company>)
    ensures forall x :: multiset(r)[x] == if StaticSelected(x, category, search, region, complexity) then multiset(db)[x] else 0
  {
    var list := Filter(db, (c: Company) => c.category == category);
    var q := Lower(search);
    var searched := if search != "" then Filter(list, (c: Company) => StaticSearchHit(c, q)) else list;
    var regional := if region != "" then Filter(searched, (c: Company) => c.region == region) else searched;
    if complexity != "" then Filter(regional, (c: Company) => c.cloudComplexity == complexity) else regional
  }

  /** `getCompaniesStatic(category, { search, region, complexity })`: a rearrangement of
      exactly the selected records. */
  method GetCompaniesStatic(db: seq<Company>, category: string, search: string, region: string, complexity: string, rnd: nat -> nat)
    returns (r: seq<Company>)
    ensures forall x :: multiset(r)[x] == if StaticSelected(x, category, search, region, complexity) then multiset(db)[x] else 0
  {
    r := Shuffle(StaticMatches(db, category, search, region, complexity), rnd);
  }

  /** Where the browser and the server disagree: a match in the headquarters only, or a
      region in another case, is kept by `/api/icp-similar` and dropped by the browser. */
  lemma ClientFilterDiffers(c: Company)
    requires c.category == "icp-similar" && c.company == "A" && c.industry == "B"
    requires c.cloudProviders == "C" && c.hq == "Pune" && c.region == "India"
    ensures Routes.IcpSelected(c, Routes.ListingQuery(None, None, "pune", "", ""))
    ensures !StaticSelected(c, "icp-similar", "pune", "", "")
    ensures Routes.IcpSelected(c, Routes.ListingQuery(None, None, "", "india", ""))
    ensures !StaticSelected(c, "icp-similar", "", "india", "")
  {
    assert Lower("Pune") == "pune";
    assert Includes(Lower(c.hq), "pune");
    assert Lower("A") == "a" && Lower("B") == "b" && Lower("C") == "c";
    assert !Includes("a", "pune") && !Includes("b", "pune") && !Includes("c", "pune");
    assert Lower("India") == "india";
  }

  // ---------------------------------------------------------------- stats

  /** `getStatsStatic()`: each count is the number of records of the browser's copy
      passing its condition. */
  function GetStatsStatic(db: seq<Company>, targetRoles: seq<string>): (s: Routes.Stats)
    ensures s.totalCompanies == |db| && s.targetRoles == |targetRoles|
    ensures s.icpSimilar == |Filter(db, Routes.IsIcpSimilar)| && s.highFit == |Filter(db, Routes.IsHighFit)|
    ensures s.indianCompanies == |Filter(db, Routes.InIndia)| && s.globalCompanies == |Filter(db, Routes.InGlobal)|
    ensures s.highComplexity == |Filter(db, Routes.IsHighComplexity)| && s.verified == |Filter(db, Routes.IsVerified)|
    ensures s.icpSimilar + s.highFit <= s.totalCompanies
    ensures s.indianCompanies + s.globalCompanies <= s.totalCompanies
    ensures s.highComplexity <= s.totalCompanies && s.verified <= s.totalCompanies
  {
    DisjointFiltersBound(db, Routes.IsIcpSimilar, Routes.IsHighFit);
    DisjointFiltersBound(db, Routes.InIndia, Routes.InGlobal);
    Routes.CountStats(db, Filter(db, Routes.IsIcpSimilar), Filter(db, Routes.IsHighFit), targetRoles)
  }

  /** The browser's counts over its copy of the data are those `/api/stats` reports over
      the same list. */
  lemma StaticStatsMatchServer(db: seq<Company>, targetRoles: seq<string>)
    ensures GetStatsStatic(db, targetRoles) == Routes.ApiStats(db, targetRoles)
  {
  }

  // ---------------------------------------------------------------- truncate

  /** `truncate(s, n)`: a falsy text gives `''`; a text longer than `n` is cut with
      `slice(0, n)` and gets `'...'`; anything else is returned as it is. */
  function Truncate(s: string, n: int): (r: string)
    ensures s == "" ==> r == ""
    ensures s != "" && |s| > n && n >= 0 ==> r == s[..n] + "..." && |r| == n + 3
    ensures s != "" && n < 0 && |s| + n >= 0 ==> r == s[..|s| + n] + "..."
    ensures s != "" && n < 0 && |s| + n < 0 ==> r == "..."
    ensures |s| <= n ==> r == s
  {
    if s == "" then ""
    else if |s| > n then Slice(s, Int(0), Int(n)) + "..."
    else s
  }

  // ---------------------------------------------------------------- dedup

  function Names(u: seq<Company>): (ns: seq<string>)
    ensures |ns| == |u|
    ensures forall i :: 0 <= i < |u| ==> ns[i] == u[i].company
  {
    seq(|u|, i requires 0 <= i < |u| => u[i].company)
  }

  /** The position of the entry named `name`, if any. */
  function FindName(u: seq<Company>, name: string): (r: Option<nat>)
    ensures r.Some? ==> r.value < |u| && u[r.value].company == name
    ensures r.None? ==> forall i :: 0 <= i < |u| ==> u[i].company != name
    decreases |u|
  {
    if |u| == 0 then None
    else if u[|u| - 1].company == name then Some(|u| - 1)
    else FindName(u[..|u| - 1], name)
  }

  /** `map.set(c.company, c)` on the entries of a JavaScript `Map` in insertion order: an
      existing key keeps its place and takes the new value; a new key goes last. */
  function Upsert(u: seq<Company>, c: Company): (r: seq<Company>)
    ensures c in r
    ensures |r| == if FindName(u, c.company).Some? then |u| else |u| + 1
    ensures forall i :: 0 <= i < |u| && u[i].company != c.company ==> r[i] == u[i]
    ensures forall i :: 0 <= i < |r| ==> r[i] == c || r[i] in u
  {
    match FindName(u, c.company)
    case Some(k) =>
      var r := u[k := c];
      assert r[k] == c;
      r
    case None => u + [c]
  }

  /** The values of a `Map` keyed by company name, filled from `db` in order: a later
      record replaces an earlier one of the same name but keeps its position. */
  function Dedup(db: seq<Company>): (r: seq<Company>)
    ensures |r| <= |db|
    ensures forall i :: 0 <= i < |r| ==> r[i] in db
    ensures |db| > 0 ==> db[|db| - 1] in r
    decreases |db|
  {
    if |db| == 0 then []
    else
      var init := db[..|db| - 1];
      assert forall x :: x in init ==> x in db;
      Upsert(Dedup(init), db[|db| - 1])
  }

  /** The reference order: each name once, where it first occurs. */
  function FirstOccurrences(ns: seq<string>): (r: seq<string>)
    decreases |ns|
  {
    if |ns| == 0 then []
    else
      var prev := FirstOccurrences(ns[..|ns| - 1]);
      if ns[|ns| - 1] in prev then prev else prev + [ns[|ns| - 1]]
  }

  /** The reference value: the last record with that name. */
  function LastNamed(db: seq<Company>, name: string): (r: Option<Company>)
    decreases |db|
  {
    if |db| == 0 then None
    else if db[|db| - 1].company == name then Some(db[|db| - 1])
    else LastNamed(db[..|db| - 1], name)
  }

  lemma UpsertNames(u: seq<Company>, c: Company)
    ensures Names(Upsert(u, c)) == if c.company in Names(u) then Names(u) else Names(u) + [c.company]
  {
    match FindName(u, c.company)
    case Some(k) =>
      assert Names(u)[k] == c.company;
      assert Names(u[k := c]) == Names(u);
    case None =>
      assert c.company !in Names(u);
      assert Names(u + [c]) == Names(u) + [c.company];
  }

  /** The names come out in first-occurrence order, each once. */
  lemma {:induction false} DedupOrder(db: seq<Company>)
    ensures Names(Dedup(db)) == FirstOccurrences(Names(db))
    decreases |db|
  {
    if |db| > 0 {
      var init := db[..|db| - 1];
      var c := db[|db| - 1];
      var ns := Names(db);
      DedupOrder(init);
      assert Dedup(db) == Upsert(Dedup(init), c);
      assert ns[..|ns| - 1] == Names(init) && ns[|ns| - 1] == c.company;
      UpsertNames(Dedup(init), c);
    }
  }

  /** The first-occurrence order has every name of the input and no repeats. */
  lemma {:induction false} FirstOccurrencesShape(ns: seq<string>)
    ensures Distinct(FirstOccurrences(ns))
    ensures forall x :: x in FirstOccurrences(ns) <==> x in ns
    decreases |ns|
  {
    if |ns| > 0 {
      var init := ns[..|ns| - 1];
      FirstOccurrencesShape(init);
      assert ns == init + [ns[|ns| - 1]];
    }
  }

  /** Every entry holds the last record of the database with its name. */
  lemma {:induction false} DedupKeepsLast(db: seq<Company>)
    ensures forall k :: 0 <= k < |Dedup(db)| ==> LastNamed(db, Dedup(db)[k].company) == Some(Dedup(db)[k])
    decreases |db|
  {
    if |db| > 0 {
      var init := db[..|db| - 1];
      var c := db[|db| - 1];
      DedupKeepsLast(init);
      var u := Dedup(init);
      var r := Dedup(db);
      assert r == Upsert(u, c);
      DedupOrder(init);
      FirstOccurrencesShape(Names(init));
      assert Distinct(Names(u));
      forall k | 0 <= k < |r| ensures LastNamed(db, r[k].company) == Some(r[k]) {
        match FindName(u, c.company)
        case Some(j) =>
          if k != j {
            assert Names(u)[k] != Names(u)[j];
            assert r[k] == u[k];
          }
        case None =>
          if k < |u| {
            assert r[k] == u[k];
          }
      }
    }
  }

  /** One entry per distinct company name, in first-occurrence order, each the last
      record with that name. */
  lemma DedupByName(db: seq<Company>)
    ensures var r := Dedup(db);
            && Distinct(Names(r))
            && (forall c :: c in db ==> c.company in Names(r))
            && Names(r) == FirstOccurrences(Names(db))
            && forall k :: 0 <= k < |r| ==> LastNamed(db, r[k].company) == Some(r[k])
  {
    DedupOrder(db);
    FirstOccurrencesShape(Names(db));
    DedupKeepsLast(db);
    forall c | c in db ensures c.company in Names(Dedup(db)) {
      var i :| 0 <= i < |db| && db[i] == c;
      assert Names(db)[i] == c.company;
    }
  }
}
