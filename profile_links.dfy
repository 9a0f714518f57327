/** Extraction of GitHub, LeetCode, LinkedIn and portfolio links from resume
    text. `backend/services/resume_parser.py` and
    `backend/services/profile_scraper.py` carry the same pattern lists and the
    same first-pattern-wins loop; the scraper also looks for a portfolio URL. */
module ProfileLinks {
  import opened Wrappers
  import opened Text
  import opened ResumePatterns

  /** A regex with one capturing group: at a start position, the match end and the group. */
  type Matcher = (string, nat) -> Option<(nat, string)>

  datatype Links = Links(github: Option<string>, leetcode: Option<string>, linkedin: Option<string>, portfolio: Option<string>)

  /** `[a-zA-Z0-9-]` */
  predicate IsHandleChar(c: char) { IsAlnum(c) || c == '-' }
  /** `[a-zA-Z0-9_-]` */
  predicate IsLeetCodeHandleChar(c: char) { IsWordChar(c) || c == '-' }

  /** `<site>([class]+)` with `re.IGNORECASE`, e.g. `github\.com/([a-zA-Z0-9-]+)`.
      The group is the longest run: nothing follows it in the pattern. */
  function SiteHandle(site: string, cls: char -> bool): Matcher {
    (s: string, i: nat) =>
      if LitAtIgnoreCase(s, i, site) then
        var n := RunLength(s, i + |site|, cls);
        if n >= 1 then Some((i + |site| + n, s[i + |site|..i + |site| + n])) else None
      else None
  }

  /** `@([class]+)\s+on\s+<platform>` with `re.IGNORECASE`. The handle and the
      spaces are whole runs: a shorter handle leaves a handle character where a
      space is required, and fewer spaces leave a space where 'o' is required. */
  function AtOn(platform: string, cls: char -> bool): Matcher
    requires forall c :: cls(c) ==> !IsSpace(c)
  {
    (s: string, i: nat) =>
      if i < |s| && s[i] == '@' then
        var n := RunLength(s, i + 1, cls);
        var a := i + 1 + n;
        var sp1 := RunLength(s, a, IsSpace);
        var b := a + sp1 + 2;
        var sp2 := RunLength(s, b, IsSpace);
        if n >= 1 && sp1 >= 1 && LitAtIgnoreCase(s, a + sp1, "on") && sp2 >= 1 && LitAtIgnoreCase(s, b + sp2, platform)
        then Some((b + sp2 + |platform|, s[i + 1..a]))
        else None
      else None
  }

  const GitHubPatterns: seq<Matcher> := [SiteHandle("github.com/", IsHandleChar), AtOn("GitHub", IsHandleChar)]
  const LeetCodePatterns: seq<Matcher> := [SiteHandle("leetcode.com/", IsLeetCodeHandleChar), AtOn("LeetCode", IsLeetCodeHandleChar)]
  const LinkedInPatterns: seq<Matcher> := [SiteHandle("linkedin.com/in/", IsHandleChar), SiteHandle("linkedin.com/pub/", IsHandleChar)]

  /** The group of the leftmost match of `m` (`re.search(...).group(1)`), or None. */
  function SearchGroup(text: string, m: Matcher): Option<string> {
    match Search(text, 0, m)
    case Some((_, _, g)) => Some(g)
    case None => None
  }

  /** The group of the first pattern, in list order, that matches anywhere. */
  function FirstGroup(text: string, patterns: seq<Matcher>): Option<string>
    decreases |patterns|
  {
    if |patterns| == 0 then None
    else if SearchGroup(text, patterns[0]).Some? then SearchGroup(text, patterns[0])
    else FirstGroup(text, patterns[1..])
  }

  /** First match wins: the result comes from a pattern that matches, every
      earlier pattern fails, and there is no result only when all fail. */
  lemma {:induction false} FirstGroupFirstWins(text: string, patterns: seq<Matcher>)
    ensures FirstGroup(text, patterns).None? <==> forall k :: 0 <= k < |patterns| ==> SearchGroup(text, patterns[k]).None?
    ensures FirstGroup(text, patterns).Some? ==>
      exists k :: 0 <= k < |patterns| && SearchGroup(text, patterns[k]) == FirstGroup(text, patterns)
        && forall j :: 0 <= j < k ==> SearchGroup(text, patterns[j]).None?
    decreases |patterns|
  {
    if |patterns| > 0 && SearchGroup(text, patterns[0]).None? {
      FirstGroupFirstWins(text, patterns[1..]);
      var r := FirstGroup(text, patterns);
      if r.Some? {
        var k :| 0 <= k < |patterns[1..]| && SearchGroup(text, patterns[1..][k]) == r
          && forall j :: 0 <= j < k ==> SearchGroup(text, patterns[1..][j]).None?;
        assert SearchGroup(text, patterns[k + 1]) == r;
        assert forall j :: 0 <= j < k + 1 ==> SearchGroup(text, patterns[j]).None? by {
          forall j | 0 <= j < k + 1
            ensures SearchGroup(text, patterns[j]).None?
          {
            if j > 0 {
              assert patterns[j] == patterns[1..][j - 1];
            }
          }
        }
      } else {
        assert forall k :: 1 <= k < |patterns| ==> patterns[k] == patterns[1..][k - 1];
      }
    }
  }

  /** The loop `for pattern in patterns: match = re.search(...); if match: ...; break`. */
  method FirstMatch(text: string, patterns: seq<Matcher>) returns (found: Option<string>)
    ensures found == FirstGroup(text, patterns)
  {
    found := None;
    var i := 0;
    while i < |patterns|
      invariant 0 <= i <= |patterns|
      invariant FirstGroup(text, patterns) == FirstGroup(text, patterns[i..])
    {
      var m := SearchGroup(text, patterns[i]);
      if m.Some? {
        found := m;
        break;
      }
      assert patterns[i..][1..] == patterns[i + 1..];
      i := i + 1;
    }
  }

  /** The GitHub, LeetCode and LinkedIn links; LinkedIn is always written as
      "linkedin.com/in/<handle>", whichever of its two patterns matched. */
  method ExtractSocialLinks(text: string) returns (links: Links)
    ensures links.github == FirstGroup(text, GitHubPatterns)
    ensures links.leetcode == FirstGroup(text, LeetCodePatterns)
    ensures links.linkedin == match FirstGroup(text, LinkedInPatterns)
      case Some(h) => Some("linkedin.com/in/" + h)
      case None => None
    ensures links.portfolio == None
  {
    links := Links(None, None, None, None);
    var g := FirstMatch(text, GitHubPatterns);
    if g.Some? {
      links := links.(github := g);
    }
    var l := FirstMatch(text, LeetCodePatterns);
    if l.Some? {
      links := links.(leetcode := l);
    }
    var li := FirstMatch(text, LinkedInPatterns);
    if li.Some? {
      links := links.(linkedin := Some("linkedin.com/in/" + li.value));
    }
  }

  // ---------------------------------------------------------------- portfolio

  /** `[a-zA-Z0-9-]+\.[a-zA-Z]{2,}` at `j`, the captured domain. The label is
      the whole run (it cannot contain the '.' that must follow), and the
      top-level part is the whole letter run, since the optional path after it
      always succeeds. */
  function DomainAt(s: string, j: nat): (r: Option<nat>)
    ensures r.Some? ==> j < r.value <= |s|
  {
    var l := RunLength(s, j, IsHandleChar);
    if l >= 1 && j + l < |s| && s[j + l] == '.' then
      var t := RunLength(s, j + l + 1, IsAlpha);
      if t >= 2 then Some(j + l + 1 + t) else None
    else None
  }

  /** `https?://(?:www\.)?([a-zA-Z0-9-]+\.[a-zA-Z]{2,})(?:/[^\s]*)?` at `i`
      (case-sensitive), with the captured domain. The optional "www." is tried
      first and given back when the domain does not match after it. */
  function UrlAt(s: string, i: nat): (r: Option<(nat, string)>)
    ensures r.Some? ==> i < r.value.0 <= |s|
  {
    if ContainsAt(s, "http", i) then
      var p := if i + 4 < |s| && s[i + 4] == 's' then i + 5 else i + 4;
      if ContainsAt(s, "://", p) then
        var q := p + 3;
        var start := if ContainsAt(s, "www.", q) && DomainAt(s, q + 4).Some? then q + 4 else q;
        match DomainAt(s, start)
        case Some(e) =>
          var end: nat := if e < |s| && s[e] == '/' then e + 1 + RunLength(s, e + 1, c => !IsSpace(c)) else e;
          Some((end, s[start..e]))
        case None => None
      else None
    else None
  }

  /** `re.findall` of the URL pattern: the captured domains in text order. */
  function UrlDomains(text: string): seq<string> {
    var ms := FindAll(text, 0, UrlAt);
    seq(|ms|, k requires 0 <= k < |ms| => ms[k].2)
  }

  const ExcludedDomains: seq<string> := ["github.com", "leetcode.com", "linkedin.com", "gmail.com", "yahoo.com"]

  predicate Excluded(url: string) {
    exists d :: d in ExcludedDomains && Contains(url, d)
  }

  /** The first domain that contains none of the excluded domains. */
  method FirstPortfolio(urls: seq<string>) returns (portfolio: Option<string>)
    ensures portfolio.None? <==> forall k :: 0 <= k < |urls| ==> Excluded(urls[k])
    ensures portfolio.Some? ==>
      exists k :: 0 <= k < |urls| && urls[k] == portfolio.value
        && !Excluded(urls[k]) && forall j :: 0 <= j < k ==> Excluded(urls[j])
  {
    portfolio := None;
    for i := 0 to |urls|
      invariant forall j :: 0 <= j < i ==> Excluded(urls[j])
    {
      var excluded := false;
      for d := 0 to |ExcludedDomains|
        invariant excluded <==> exists e :: 0 <= e < d && Contains(urls[i], ExcludedDomains[e])
      {
        if Contains(urls[i], ExcludedDomains[d]) {
          excluded := true;
        }
      }
      if !excluded {
        portfolio := Some(urls[i]);
        return;
      }
    }
  }

  /** The scraper's link extraction: the social links, and the first URL whose
      domain is not one of the excluded platforms as the portfolio. */
  method ExtractLinksWithPortfolio(text: string) returns (links: Links)
    ensures links.github == FirstGroup(text, GitHubPatterns)
    ensures links.leetcode == FirstGroup(text, LeetCodePatterns)
    ensures links.linkedin == match FirstGroup(text, LinkedInPatterns)
      case Some(h) => Some("linkedin.com/in/" + h)
      case None => None
    ensures links.portfolio.None? <==> forall u :: u in UrlDomains(text) ==> Excluded(u)
    ensures links.portfolio.Some? ==>
      var urls := UrlDomains(text);
      exists k :: 0 <= k < |urls| && urls[k] == links.portfolio.value
        && !Excluded(urls[k]) && forall j :: 0 <= j < k ==> Excluded(urls[j])
  {
    links := ExtractSocialLinks(text);
    var p := FirstPortfolio(UrlDomains(text));
    if p.Some? {
      links := links.(portfolio := p);
    }
  }
}
