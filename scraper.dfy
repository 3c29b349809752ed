/** `scrapeCompanies` and `scrapeProfiles` of `server/brightdata.js`: sort the requested
    URLs (in the caller's array), look the sorted list up in the cache, and on a miss
    trigger a provider job, wait for it, and cache the payload only when the wait returns
    one. The provider's trigger endpoint and its per-snapshot behaviour are oracles. */
module Scraper {
  import opened Wrappers
  import opened JsText
  import opened StringOrder
  import opened Records
  import opened ScrapeCache
  import opened Polling

  const CompanyDataset: string := "gd_l1vikfnt1wgvvqz95w"
  const ProfileDataset: string := "gd_l1viktl72bvl7bjuj0"
  const CompaniesPrefix: string := "companies:"
  const ProfilesPrefix: string := "profiles:"

  /** The provider as an oracle: the answer to a trigger request for a dataset and a list
      of URLs (a snapshot id, or an HTTP error), how long that call takes, and how each
      snapshot then behaves. */
  datatype Provider = Provider(
    trigger: (string, seq<string>) -> Reply<string>,
    triggerMs: nat,
    jobs: string -> Job)

  /** The cache key: the prefix, then the URLs in sorted order joined with commas; a
      single URL is its own key after the prefix. */
  function CacheKey(prefix: string, urls: seq<string>): (key: string)
    ensures prefix <= key
    ensures |urls| == 0 ==> key == prefix
  {
    prefix + Join(SortStrings(urls), ",")
  }

  /** Requests for the same URLs in any order share one cache entry. */
  lemma CacheKeyIgnoresOrder(prefix: string, u: seq<string>, v: seq<string>)
    requires multiset(u) == multiset(v)
    ensures CacheKey(prefix, u) == CacheKey(prefix, v)
  {
    SortStringsPermutationInvariant(u, v);
  }

  /** Company and profile requests never share an entry. */
  lemma CompanyAndProfileKeysDiffer(u: seq<string>, v: seq<string>)
    ensures CacheKey(CompaniesPrefix, u) != CacheKey(ProfilesPrefix, v)
  {
    assert CacheKey(CompaniesPrefix, u)[0] == 'c';
    assert CacheKey(ProfilesPrefix, v)[0] == 'p';
  }

  /** The request is answered from the cache: `getCached` finds a live entry and
      `if (cached)` finds its payload truthy. */
  predicate Hit(m: map<string, Entry<Payload>>, key: string, now: int) {
    Lookup(m, key, now).Some? && Truthy(Lookup(m, key, now).value)
  }

  /** What one scrape request does to the cache, given the table before and after, the
      key, the clock on entry and on return, the outcome and whether the provider was
      called. A hit calls nothing and changes nothing; a miss calls the provider, stores
      the payload stamped with the return time when it succeeds, and otherwise leaves only
      the lazy eviction of the read behind. */
  ghost predicate CacheEffect(
    before: map<string, Entry<Payload>>, after: map<string, Entry<Payload>>, key: string,
    now: int, done: int, r: Result<Payload, ScrapeError>, triggered: bool)
  {
    && (Hit(before, key, now) ==>
          r == Success(before[key].data) && !triggered && done == now && after == before)
    && (!Hit(before, key, now) ==> triggered && done >= now)
    && (!Hit(before, key, now) && r.Success? ==> after == before[key := Entry(r.value, done)])
    && (!Hit(before, key, now) && r.Failure? ==> after == AfterRead(before, key, now))
  }

  /** What one scrape request asks of the provider, given whether the cache answered, the
      dataset and the sorted URLs: a hit asks nothing; a miss sends the trigger call, and
      either fails with the trigger's status once that call returns, or reports exactly
      what `waitForResults` reports for the returned snapshot, entered when the trigger
      call returned and given the default two-minute budget. */
  predicate ProviderEffect(
    hit: bool, provider: Provider, dataset: string, inputs: seq<string>,
    now: int, r: Result<Payload, ScrapeError>, polls: nat, done: int)
  {
    var reply := provider.trigger(dataset, inputs);
    && (hit ==> polls == 0)
    && (!hit && reply.HttpError? ==>
          r == Failure(TriggerFailed(reply.status)) && polls == 0 && done == now + provider.triggerMs)
    && (!hit && reply.Ok? ==>
          Polled(provider.jobs(reply.body), now + provider.triggerMs, DefaultMaxWaitMs, r, polls)
          && done >= now + provider.triggerMs)
  }

  /** The body shared by `scrapeCompanies` and `scrapeProfiles`. */
  method Scrape(cache: Cache<Payload>, prefix: string, dataset: string, urls: array<string>, provider: Provider, now: int)
    returns (r: Result<Payload, ScrapeError>, triggered: bool, polls: nat, done: int)
    modifies cache, urls
    ensures urls[..] == SortStrings(old(urls[..]))
    ensures CacheEffect(old(cache.entries), cache.entries, CacheKey(prefix, old(urls[..])), now, done, r, triggered)
    ensures (r.Failure? && r.error.TriggerFailed?) <==>
              triggered && provider.trigger(dataset, SortStrings(old(urls[..]))).HttpError?
    ensures ProviderEffect(Hit(old(cache.entries), CacheKey(prefix, old(urls[..])), now), provider, dataset,
                           SortStrings(old(urls[..])), now, r, polls, done)
  {
    SortInPlace(urls);
    var key := prefix + Join(urls[..], ",");
    ghost var hit := Hit(cache.entries, key, now);
    var cached := cache.Get(key, now);
    if cached.Some? && Truthy(cached.value) {
      r, triggered, polls, done := Success(cached.value), false, 0, now;
      return;
    }
    triggered := true;
    var inputs := urls[..];
    match provider.trigger(dataset, inputs) {
      case HttpError(status) =>
        r, polls, done := Failure(TriggerFailed(status)), 0, now + provider.triggerMs;
      case Ok(snapshotId) =>
        r, polls, done := WaitForResults(provider.jobs(snapshotId), now + provider.triggerMs, DefaultMaxWaitMs);
        assert ProviderEffect(hit, provider, dataset, inputs, now, r, polls, done);
        if r.Success? {
          cache.Set(key, r.value, done);
        }
    }
  }

  /** `scrapeCompanies(companyUrls)`. */
  method ScrapeCompanies(cache: Cache<Payload>, urls: array<string>, provider: Provider, now: int)
    returns (r: Result<Payload, ScrapeError>, triggered: bool, polls: nat, done: int)
    modifies cache, urls
    ensures urls[..] == SortStrings(old(urls[..]))
    ensures CacheEffect(old(cache.entries), cache.entries, CacheKey(CompaniesPrefix, old(urls[..])), now, done, r, triggered)
    ensures (r.Failure? && r.error.TriggerFailed?) <==>
              triggered && provider.trigger(CompanyDataset, SortStrings(old(urls[..]))).HttpError?
    ensures ProviderEffect(Hit(old(cache.entries), CacheKey(CompaniesPrefix, old(urls[..])), now), provider, CompanyDataset,
                           SortStrings(old(urls[..])), now, r, polls, done)
  {
    r, triggered, polls, done := Scrape(cache, CompaniesPrefix, CompanyDataset, urls, provider, now);
  }

  /** `scrapeProfiles(profileUrls)`. */
  method ScrapeProfiles(cache: Cache<Payload>, urls: array<string>, provider: Provider, now: int)
    returns (r: Result<Payload, ScrapeError>, triggered: bool, polls: nat, done: int)
    modifies cache, urls
    ensures urls[..] == SortStrings(old(urls[..]))
    ensures CacheEffect(old(cache.entries), cache.entries, CacheKey(ProfilesPrefix, old(urls[..])), now, done, r, triggered)
    ensures (r.Failure? && r.error.TriggerFailed?) <==>
              triggered && provider.trigger(ProfileDataset, SortStrings(old(urls[..]))).HttpError?
    ensures ProviderEffect(Hit(old(cache.entries), CacheKey(ProfilesPrefix, old(urls[..])), now), provider, ProfileDataset,
                           SortStrings(old(urls[..])), now, r, polls, done)
  {
    r, triggered, polls, done := Scrape(cache, ProfilesPrefix, ProfileDataset, urls, provider, now);
  }

  /** Two requests under one key, the second after the first returned: when the first
      called the provider and stored a truthy payload, the second is a hit while the entry
      is younger than 30 minutes and a miss afterwards; after a failed first request the
      second is always a miss. No entry is stamped later than the first request. */
  lemma SecondRequest(
    before: map<string, Entry<Payload>>, mid: map<string, Entry<Payload>>, after: map<string, Entry<Payload>>,
    key: string, t1: int, done1: int, r1: Result<Payload, ScrapeError>, triggered1: bool,
    t2: int, done2: int, r2: Result<Payload, ScrapeError>, triggered2: bool)
    requires forall k :: k in before ==> before[k].time <= t1
    requires CacheEffect(before, mid, key, t1, done1, r1, triggered1)
    requires CacheEffect(mid, after, key, t2, done2, r2, triggered2)
    ensures triggered1 && r1.Success? && Truthy(r1.value) && t2 - done1 < TtlMs ==> r2 == r1 && !triggered2
    ensures r1.Success? && t2 - done1 >= TtlMs ==> triggered2
    ensures r1.Failure? ==> triggered2
  {
    if r1.Success? && t2 - done1 >= TtlMs && !triggered1 {
      assert mid[key].time <= t1 <= done1;
    }
  }

  /** Two company requests for the same URLs, in any order: when the first called the
      provider and stored a truthy payload, and the second comes less than 30 minutes
      after the first returned, the second is served from the cache without calling the
      provider; once 30 minutes have passed, or when the first failed, the provider is
      called again. */
  method RepeatedCompanyRequest(
    cache: Cache<Payload>, first: array<string>, second: array<string>,
    p1: Provider, p2: Provider, t1: int, t2: int)
    returns (r1: Result<Payload, ScrapeError>, triggered1: bool, done1: int,
             r2: Result<Payload, ScrapeError>, triggered2: bool)
    requires multiset(first[..]) == multiset(second[..])
    requires forall k :: k in cache.entries ==> cache.entries[k].time <= t1
    modifies cache, first, second
    ensures triggered1 && r1.Success? && Truthy(r1.value) && t2 - done1 < TtlMs ==> r2 == r1 && !triggered2
    ensures r1.Success? && t2 - done1 >= TtlMs ==> triggered2
    ensures r1.Failure? ==> triggered2
  {
    var polls1, polls2;
    ghost var key := CacheKey(CompaniesPrefix, first[..]);
    r1, triggered1, polls1, done1 := ScrapeCompanies(cache, first, p1, t1);
    ghost var mid := cache.entries;
    assert multiset(second[..]) == multiset(old(first[..])) by {
      if first != second {
        assert second[..] == old(second[..]);
      }
    }
    CacheKeyIgnoresOrder(CompaniesPrefix, old(first[..]), second[..]);
    var done2;
    r2, triggered2, polls2, done2 := ScrapeCompanies(cache, second, p2, t2);
    SecondRequest(old(cache.entries), mid, cache.entries, key, t1, done1, r1, triggered1, t2, done2, r2, triggered2);
  }
}
