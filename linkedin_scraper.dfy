/** The scraper's pure part (linkedin_scraper.py): the check of a profile
    URL, the mapping of the scraped record onto the profile the agents read,
    and the choice between that record and the built-in demonstration
    profile. The scrape itself is a parameter. */
module LinkedInScraper {
  import opened Wrappers
  import opened Text
  import opened ProfileData

  const ProfilePrefix: string := "https://www.linkedin.com/in/"
  const ShortPrefix: string := "linkedin.com/in/"

  /** The profile URL the demonstration profile carries when none is given. */
  const DefaultProfileUrl: string := "https://www.linkedin.com/in/sarah-johnson-dev"

  /* ---------------- URL validation ---------------- */

  /** `_is_valid_linkedin_url(url)`: the lower-cased URL starts with one of
      the two profile prefixes. */
  predicate IsValidUrl(url: string) {
    var u := Lower(url);
    StartsWith(u, ProfilePrefix) || StartsWith(u, ShortPrefix)
  }

  /** The check ignores case: upper-casing or lower-casing the URL does not
      change the verdict. */
  lemma ValidUrlIgnoresCase(url: string)
    ensures IsValidUrl(Upper(url)) == IsValidUrl(url)
    ensures IsValidUrl(Lower(url)) == IsValidUrl(url)
  {
    LowerOfUpper(url);
    LowerIdempotent(url);
  }

  /** Only the prefix is looked at: whatever follows a valid URL keeps it
      valid. */
  lemma ValidUrlExtends(url: string, rest: string)
    requires IsValidUrl(url)
    ensures IsValidUrl(url + rest)
  {
    var u := Lower(url);
    var v := Lower(url + rest);
    assert v[..|u|] == u;
    if StartsWith(u, ProfilePrefix) {
      assert v[..|ProfilePrefix|] == u[..|ProfilePrefix|];
    } else {
      assert v[..|ShortPrefix|] == u[..|ShortPrefix|];
    }
  }

  /** Every URL that begins with one of the prefixes, in any case, is
      valid, whatever handle follows. */
  lemma ValidProfileUrls(handle: string)
    ensures IsValidUrl(ProfilePrefix + handle)
    ensures IsValidUrl(ShortPrefix + handle)
    ensures IsValidUrl(Upper(ProfilePrefix) + handle)
  {
    LowerOfLowerCase(ProfilePrefix);
    LowerOfLowerCase(ShortPrefix);
    PrefixUrl(ProfilePrefix, handle);
    PrefixUrl(ShortPrefix, handle);
    LowerOfUpper(ProfilePrefix);
    assert Lower(Upper(ProfilePrefix)) == ProfilePrefix;
    PrefixUrl(Upper(ProfilePrefix), handle);
  }

  /** A valid URL with anything after it. */
  lemma PrefixUrl(p: string, handle: string)
    requires Lower(p) == ProfilePrefix || Lower(p) == ShortPrefix
    ensures IsValidUrl(p + handle)
  {
    ValidUrlExtends(p, handle);
  }

  /** A secure URL without `www.` is refused, whatever handle follows. */
  lemma NoWwwIsInvalid(handle: string)
    ensures !IsValidUrl("https://linkedin.com/in/" + handle)
  {
    var url := "https://linkedin.com/in/" + handle;
    var u := Lower(url);
    assert u[0] == 'h' && u[8] == 'l';
    assert !StartsWith(u, ShortPrefix) by { assert ShortPrefix[0] == 'l'; }
    assert !StartsWith(u, ProfilePrefix) by { assert ProfilePrefix[8] == 'w'; }
  }

  /** A bare word is no profile URL. */
  lemma DemoIsInvalid()
    ensures !IsValidUrl("demo")
  {
    assert |"demo"| < |ShortPrefix| < |ProfilePrefix|;
  }

  /* ---------------- the scraped record ---------------- */

  /** The first dataset item the scrape returns, for the keys the mapping
      reads. A missing key is `None`; list-valued keys that are missing are
      empty. */
  datatype RawProfile = RawProfile(
    fullName: Option<string>,
    firstName: Option<string>,
    lastName: Option<string>,
    headline: Option<string>,
    addressWithCountry: Option<string>,
    addressWithoutCountry: Option<string>,
    about: Option<string>,
    experiences: seq<Entry>,
    educations: seq<Entry>,
    skills: seq<Entry>,
    connections: Option<int>,
    linkedinUrl: Option<string>,
    profilePic: Option<string>,
    profilePicHighQuality: Option<string>,
    companyIndustry: Option<string>,
    companyName: Option<string>,
    languages: seq<Entry>,
    licenseAndCertificates: seq<Entry>,
    volunteerAndAwards: seq<Entry>,
    projects: seq<Entry>)

  /** The standardised record `_standardize_profile_data` returns, which
      also keeps the raw record. */
  datatype StandardProfile = StandardProfile(
    name: string,
    headline: string,
    location: string,
    summary: string,
    experience: seq<Entry>,
    education: seq<Entry>,
    skills: seq<string>,
    connections: int,
    profileUrl: string,
    profileImage: string,
    industry: string,
    company: string,
    school: string,
    languages: seq<Entry>,
    certifications: seq<Entry>,
    volunteer: seq<Entry>,
    projects: seq<Entry>,
    rawData: RawProfile)

  /** `a or b` for optional strings: `a` when it is a non-empty string. */
  function Or(a: Option<string>, b: string): (r: string)
    ensures Truthy(a) ==> r == a.value
    ensures !Truthy(a) ==> r == b
  {
    if Truthy(a) then a.value else b
  }

  /** The skill-list comprehension: the titles of the entries whose title is
      present and non-empty, in their order. */
  function SkillTitles(skills: seq<Entry>): (r: seq<string>)
    ensures |r| <= |skills|
    ensures forall i :: 0 <= i < |r| ==> r[i] != []
    decreases |skills|
  {
    if skills == [] then []
    else
      var t := Get(skills[0], "title", "");
      (if t != [] then [t] else []) + SkillTitles(skills[1..])
  }

  /** An entry whose title is present and non-empty. */
  predicate HasTitle(e: Entry) {
    Get(e, "title", "") != []
  }

  /** `_standardize_profile_data(raw)` */
  function Standardize(raw: RawProfile): StandardProfile {
    StandardProfile(
      name := Or(raw.fullName, GetOr(raw.firstName, "") + " " + GetOr(raw.lastName, "")),
      headline := Or(raw.headline, ""),
      location := Or(raw.addressWithCountry, Or(raw.addressWithoutCountry, "")),
      summary := Or(raw.about, ""),
      experience := raw.experiences,
      education := raw.educations,
      skills := SkillTitles(raw.skills),
      connections := if raw.connections.Some? then raw.connections.value else 0,
      profileUrl := Or(raw.linkedinUrl, ""),
      profileImage := Or(raw.profilePic, Or(raw.profilePicHighQuality, "")),
      industry := Or(raw.companyIndustry, ""),
      company := Or(raw.companyName, ""),
      school := if raw.educations != [] then Get(raw.educations[0], "title", "") else "",
      languages := raw.languages,
      certifications := raw.licenseAndCertificates,
      volunteer := raw.volunteerAndAwards,
      projects := raw.projects,
      rawData := raw)
  }

  /** The comprehension over two runs of entries is the comprehension over
      each, one after the other: the order of the skills is kept. */
  lemma {:induction false} SkillTitlesAppend(a: seq<Entry>, b: seq<Entry>)
    ensures SkillTitles(a + b) == SkillTitles(a) + SkillTitles(b)
    decreases |a|
  {
    if a == [] {
      assert a + b == b;
    } else {
      assert (a + b)[1..] == a[1..] + b;
      SkillTitlesAppend(a[1..], b);
    }
  }

  /** Every entry with a title contributes exactly that title. */
  lemma {:induction false} SkillTitlesAllTitled(skills: seq<Entry>)
    requires forall i :: 0 <= i < |skills| ==> HasTitle(skills[i])
    ensures |SkillTitles(skills)| == |skills|
    ensures forall i :: 0 <= i < |skills| ==> SkillTitles(skills)[i] == Get(skills[i], "title", "")
    decreases |skills|
  {
    if skills != [] {
      SkillTitlesAllTitled(skills[1..]);
      var r := SkillTitles(skills);
      assert r == [Get(skills[0], "title", "")] + SkillTitles(skills[1..]);
      forall i | 0 < i < |skills| ensures r[i] == Get(skills[i], "title", "") {
        assert r[i] == SkillTitles(skills[1..])[i - 1];
        assert skills[1..][i - 1] == skills[i];
      }
    }
  }

  /** Entries without a title contribute nothing. */
  lemma {:induction false} SkillTitlesNoneTitled(skills: seq<Entry>)
    requires forall i :: 0 <= i < |skills| ==> !HasTitle(skills[i])
    ensures SkillTitles(skills) == []
    decreases |skills|
  {
    if skills != [] {
      SkillTitlesNoneTitled(skills[1..]);
    }
  }

  /** Some entry of `skills` has the title `x`. */
  predicate TitleIn(skills: seq<Entry>, x: string) {
    exists j :: 0 <= j < |skills| && Get(skills[j], "title", "") == x
  }

  /** Every standardised skill is the title of some scraped skill entry. */
  lemma {:induction false} SkillTitlesFromEntries(skills: seq<Entry>)
    ensures forall i :: 0 <= i < |SkillTitles(skills)| ==> TitleIn(skills, SkillTitles(skills)[i])
    decreases |skills|
  {
    if skills != [] {
      SkillTitlesFromEntries(skills[1..]);
      var r := SkillTitles(skills);
      var rest := SkillTitles(skills[1..]);
      var t := Get(skills[0], "title", "");
      assert r == (if t != [] then [t] else []) + rest;
      forall i | 0 <= i < |r| ensures TitleIn(skills, r[i]) {
        if t != [] && i == 0 {
          assert Get(skills[0], "title", "") == r[i];
        } else {
          var i' := if t != [] then i - 1 else i;
          assert r[i] == rest[i'];
          assert TitleIn(skills[1..], rest[i']);
          var j :| 0 <= j < |skills[1..]| && Get(skills[1..][j], "title", "") == rest[i'];
          assert Get(skills[j + 1], "title", "") == r[i];
        }
      }
    }
  }

  /** The standardised name is the full name when there is one, otherwise
      the first and last names around a space; it is never empty. */
  lemma StandardName(raw: RawProfile)
    ensures Truthy(raw.fullName) ==> Standardize(raw).name == raw.fullName.value
    ensures !Truthy(raw.fullName) ==>
      Standardize(raw).name == GetOr(raw.firstName, "") + " " + GetOr(raw.lastName, "")
    ensures Standardize(raw).name != []
  {
  }

  /** The school is the title of the first education, or empty when there
      is none. */
  lemma StandardSchool(raw: RawProfile)
    ensures raw.educations == [] ==> Standardize(raw).school == []
    ensures raw.educations != [] ==> Standardize(raw).school == Get(raw.educations[0], "title", "")
  {
  }

  /* ---------------- the scrape and its fallback ---------------- */

  /** What the scrape of a valid URL gives: the first dataset item, nothing
      (no run, no dataset, no item, or an empty item), or an exception. */
  datatype Fetch = Fetched(raw: RawProfile) | NoData | Raised(error: string)

  /** `scrape_profile` returns the standardised record or the demonstration
      profile, of which only the URL varies. */
  datatype ScrapeResult = Scraped(profile: StandardProfile) | Mock(profileUrl: string)

  /** The URL `_get_mock_profile_data(profile_url)` carries. */
  function MockUrl(url: string): (r: string)
    ensures r != []
    ensures url != [] ==> r == url
  {
    if url != [] then url else DefaultProfileUrl
  }

  /** `scrape_profile(url)`, with the scrape given as `fetch`. */
  function ScrapeProfile(url: string, fetch: string -> Fetch): ScrapeResult {
    if !IsValidUrl(url) then Mock(MockUrl(url))
    else
      match fetch(url)
      case Fetched(raw) => Scraped(Standardize(raw))
      case NoData => Mock(MockUrl(url))
      case Raised(_) => Mock(MockUrl(url))
  }

  /** An invalid URL gives the demonstration profile, and the scrape is not
      consulted: any two scrapers give the same result. */
  lemma InvalidUrlNeverScrapes(url: string, fetch: string -> Fetch, other: string -> Fetch)
    requires !IsValidUrl(url)
    ensures ScrapeProfile(url, fetch) == Mock(MockUrl(url))
    ensures ScrapeProfile(url, fetch) == ScrapeProfile(url, other)
  {
  }

  /** A valid URL is never empty. */
  lemma ValidUrlNonEmpty(url: string)
    requires IsValidUrl(url)
    ensures url != []
  {
    assert |Lower(url)| == |url|;
  }

  /** The scraped record is returned exactly when the URL is valid and the
      scrape gave an item; it is then the standardised item. When a valid
      URL's scrape gives nothing or raises, the demonstration profile
      carries that URL. */
  lemma ScrapeOutcome(url: string, fetch: string -> Fetch)
    ensures ScrapeProfile(url, fetch).Scraped? <==> IsValidUrl(url) && fetch(url).Fetched?
    ensures ScrapeProfile(url, fetch).Scraped? ==> ScrapeProfile(url, fetch).profile == Standardize(fetch(url).raw)
    ensures ScrapeProfile(url, fetch).Mock? ==> ScrapeProfile(url, fetch).profileUrl == MockUrl(url)
    ensures IsValidUrl(url) && !fetch(url).Fetched? ==> ScrapeProfile(url, fetch) == Mock(url)
  {
    if IsValidUrl(url) {
      ValidUrlNonEmpty(url);
    }
  }

  /** The empty URL is invalid, so it gives the demonstration profile with
      the default URL. */
  lemma EmptyUrlGivesDefault(fetch: string -> Fetch)
    ensures ScrapeProfile([], fetch) == Mock(DefaultProfileUrl)
  {
    assert Lower([]) == [];
  }
}
