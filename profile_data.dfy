/** The profile record the agents read: the standardised dictionary built by
    the scraper (linkedin_scraper.py:93-112) or supplied by the caller. */
module ProfileData {
  import opened Wrappers

  /** One entry of a list of dictionaries (an experience, an education, a
      skill, a certificate), with string values. */
  type Entry = map<string, string>

  /** `entry.get(key, default)` */
  function Get(e: Entry, key: string, default: string): (r: string)
    ensures key !in e ==> r == default
    ensures key in e ==> r == e[key]
  {
    if key in e then e[key] else default
  }

  /** Python truth value of an optional string: present and non-empty. */
  predicate Truthy(s: Option<string>) {
    s.Some? && s.value != []
  }

  /** `profile_data.get(key, default)` for a string-valued key. */
  function GetOr(s: Option<string>, default: string): string {
    if s.Some? then s.value else default
  }

  /** The keys the agents read. A missing list is the same as an empty one
      for every reader, so lists are plain sequences; a missing string is
      told apart from an empty one, since readers supply different
      defaults. */
  datatype Profile = Profile(
    name: Option<string>,
    headline: Option<string>,
    summary: Option<string>,
    experience: seq<Entry>,
    education: seq<Entry>,
    skills: seq<string>,
    certifications: seq<Entry>,
    languages: seq<Entry>,
    volunteer: seq<Entry>)
}
