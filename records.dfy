/** The records the application passes around. JavaScript objects with optional
    properties become datatypes whose absent string properties are `""` and absent
    counts are `0`: both are falsy, which is all the modelled code tests them for. */
module Records {
  import opened SeqUtils

  /** A company as the views, the static dataset and the scrape normaliser share it. */
  datatype Company = Company(
    company: string,
    industry: string,
    category: string,        // "icp-similar" or "high-fit"
    region: string,          // "India" or "Global"
    hq: string,
    estCloudSpend: string,
    cloudComplexity: string, // "Low", "Medium" or "High"
    cloudProviders: string,
    cloudSignals: string,
    whyFit: string,
    icpSimilarity: string,
    verified: bool,
    employeeCount: string,
    linkedinSlug: string,
    linkedinUrl: string,
    followers: nat,
    about: string,
    specialties: seq<string>,
    scrapedLive: bool)

  /** One record of the provider's LinkedIn datasets. The provider's JSON keys are
      `name`, `company_name`, `industry`, `industries`, `headquarters`, `locations`,
      `country_code`, `employees_in_linkedin`, `company_size`, `linkedin_id`, `id`, `url`,
      `followers`, `about` and `specialties`; an absent array is the empty sequence. */
  datatype RawRecord = RawRecord(
    name: string,
    companyName: string,
    industry: string,
    industries: seq<string>,
    headquarters: string,
    locations: seq<string>,
    countryCode: string,
    employeesInLinkedin: string,
    companySize: string,
    linkedinId: string,
    id: string,
    url: string,
    followers: nat,
    about: string,
    specialties: seq<string>)

  /** The decoded body of a snapshot download: normally an array of records, but the
      normaliser also copes with anything else, which JavaScript may find truthy or not. */
  datatype Payload = Rows(rows: seq<RawRecord>) | NonArray(truthy: bool)

  /** JavaScript truthiness of a payload: every array is truthy. */
  predicate Truthy(p: Payload) {
    p.Rows? || p.truthy
  }

  /** `getAllCompanies(category)`. Its module, `companies-data.js`, is not part of this
      model; like the browser's static copy it is taken to select the records of one
      category from the full list `COMPANIES`. */
  function AllCompanies(db: seq<Company>, category: string): (r: seq<Company>)
    ensures forall x :: multiset(r)[x] == if x.category == category then multiset(db)[x] else 0
    ensures forall i :: 0 <= i < |r| ==> r[i].category == category && r[i] in db
  {
    Filter(db, (c: Company) => c.category == category)
  }
}
