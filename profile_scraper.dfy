/** The profile scraper (`backend/services/profile_scraper.py`): a 24-hour
    cache of scraped GitHub and LeetCode profiles, and the aggregation of the
    fetched API data into the statistics the analyzer scores. The HTTP
    responses are parameters: each scrape method receives what the API would
    answer, and the clock is the parameter `now`, in microseconds (the
    resolution of Python's `datetime`). The link extraction is
    `ProfileLinks.ExtractLinksWithPortfolio`. */
module ProfileScraper {
  import opened Wrappers
  import opened Text
  import opened Sorting
  import opened ProfileAnalyzer

  /** `timedelta(hours=24)` in microseconds. */
  const CacheDuration: int := 24 * 60 * 60 * 1000000

  // ---------------------------------------------------------------- fetched data

  /** A repository of the `/repos` listing, absent counts read as 0. */
  datatype Repo = Repo(name: string, stars: int, forks: int, language: Option<string>)

  /** The fields of the `/users/<name>` answer that the profile keeps. */
  datatype GitHubUser = GitHubUser(name: Option<string>, publicRepos: int, followers: int, following: int)

  /** One `acSubmissionNum` entry: the difficulty (absent read as "") and the count. */
  datatype SubmitStat = SubmitStat(difficulty: string, count: int)

  datatype LeetCodeUser = LeetCodeUser(realName: Option<string>, ranking: Option<int>, submitStats: seq<SubmitStat>)

  /** The GraphQL answer: whether it carries `errors`, and the `matchedUser` if truthy. */
  datatype LeetCodeAnswer = LeetCodeAnswer(hasErrors: bool, matchedUser: Option<LeetCodeUser>)

  /** A language and the number of repositories written in it. */
  type Tally = seq<(string, nat)>

  /** A scrape result: a profile, or the error dictionary. */
  datatype Scraped =
    | GitHubProfile(username: string, name: Option<string>, publicRepos: int, followers: int, following: int,
                    totalStars: int, totalForks: int, topLanguages: Tally, topRepos: seq<Repo>, scrapedAt: int)
    | LeetCodeProfile(username: string, realName: Option<string>, ranking: Option<int>, problems: Problems, scrapedAt: int)
    | ScrapeError(error: string, username: string)

  // ---------------------------------------------------------------- GitHub aggregation

  function TotalStars(repos: seq<Repo>): int
    decreases |repos|
  {
    if |repos| == 0 then 0 else TotalStars(repos[..|repos| - 1]) + repos[|repos| - 1].stars
  }

  function TotalForks(repos: seq<Repo>): int
    decreases |repos|
  {
    if |repos| == 0 then 0 else TotalForks(repos[..|repos| - 1]) + repos[|repos| - 1].forks
  }

  /** The languages of the repositories whose language is truthy, in listing order. */
  function LanguagesOf(repos: seq<Repo>): seq<string>
    decreases |repos|
  {
    if |repos| == 0 then []
    else
      var last := repos[|repos| - 1];
      LanguagesOf(repos[..|repos| - 1]) + (if Truthy(last.language) then [last.language.value] else [])
  }

  /** `languages[lang] = languages.get(lang, 0) + 1` on an insertion-ordered dict:
      the entry for `lang` goes up by one, or a new entry with count 1 is added at the end. */
  function Bump(t: Tally, lang: string): Tally
    decreases |t|
  {
    if |t| == 0 then [(lang, 1)]
    else if t[0].0 == lang then [(lang, t[0].1 + 1)] + t[1..]
    else [t[0]] + Bump(t[1..], lang)
  }

  /** `languages.get(lang, 0)`. */
  function CountOf(t: Tally, lang: string): nat
    decreases |t|
  {
    if |t| == 0 then 0 else if t[0].0 == lang then t[0].1 else CountOf(t[1..], lang)
  }

  /** The `languages` dict after the counting loop. */
  function LanguageTally(repos: seq<Repo>): Tally
    decreases |repos|
  {
    if |repos| == 0 then []
    else
      var t := LanguageTally(repos[..|repos| - 1]);
      var last := repos[|repos| - 1];
      if Truthy(last.language) then Bump(t, last.language.value) else t
  }

  lemma KeysCons(p: (string, nat), t: Tally)
    ensures Firsts([p] + t) == [p.0] + Firsts(t)
  {
  }

  /** A bump adds a key only when it is new, and then at the end. */
  lemma {:induction false} BumpKeys(t: Tally, lang: string)
    ensures Firsts(Bump(t, lang)) == if lang in Firsts(t) then Firsts(t) else Firsts(t) + [lang]
    decreases |t|
  {
    if |t| == 0 {
    } else if t[0].0 == lang {
      assert Firsts(t)[0] == lang;
      assert Firsts(Bump(t, lang)) == Firsts(t);
    } else {
      BumpKeys(t[1..], lang);
      KeysCons(t[0], Bump(t[1..], lang));
      KeysCons(t[0], t[1..]);
      assert [t[0]] + t[1..] == t;
      assert lang in Firsts(t) <==> lang in Firsts(t[1..]);
    }
  }

  /** A bump adds one to the count of its language and to no other. */
  lemma {:induction false} BumpCounts(t: Tally, lang: string, x: string)
    ensures CountOf(Bump(t, lang), x) == CountOf(t, x) + (if x == lang then 1 else 0)
    decreases |t|
  {
    if |t| == 0 {
    } else if t[0].0 == lang {
      assert ([(lang, t[0].1 + 1)] + t[1..])[1..] == t[1..];
    } else {
      BumpCounts(t[1..], lang, x);
      assert ([t[0]] + Bump(t[1..], lang))[1..] == Bump(t[1..], lang);
    }
  }

  /** A bump keeps every count positive. */
  lemma {:induction false} BumpPositive(t: Tally, lang: string)
    requires forall k :: 0 <= k < |t| ==> t[k].1 >= 1
    ensures forall k :: 0 <= k < |Bump(t, lang)| ==> Bump(t, lang)[k].1 >= 1
    decreases |t|
  {
    if |t| > 0 && t[0].0 != lang {
      forall k | 0 <= k < |t[1..]| ensures t[1..][k].1 >= 1 {
        assert t[1..][k] == t[k + 1];
      }
      BumpPositive(t[1..], lang);
    }
  }

  /** The counting loop builds a dict whose keys are the truthy languages in
      first-seen order, each counted once per repository written in it. */
  lemma {:induction false} LanguageTallyExact(repos: seq<Repo>)
    ensures Firsts(LanguageTally(repos)) == Dedup(LanguagesOf(repos))
    ensures forall lang :: CountOf(LanguageTally(repos), lang) == multiset(LanguagesOf(repos))[lang]
    ensures forall k :: 0 <= k < |LanguageTally(repos)| ==> LanguageTally(repos)[k].1 >= 1
    decreases |repos|
  {
    if |repos| > 0 {
      var init := repos[..|repos| - 1];
      var last := repos[|repos| - 1];
      LanguageTallyExact(init);
      if Truthy(last.language) {
        var xs := LanguagesOf(repos);
        assert xs == LanguagesOf(init) + [last.language.value];
        assert xs[..|xs| - 1] == LanguagesOf(init) && xs[|xs| - 1] == last.language.value;
        assert Dedup(xs) == var d := Dedup(LanguagesOf(init)); if last.language.value in d then d else d + [last.language.value];
        BumpKeys(LanguageTally(init), last.language.value);
        forall lang ensures CountOf(LanguageTally(repos), lang) == multiset(LanguagesOf(repos))[lang] {
          BumpCounts(LanguageTally(init), last.language.value, lang);
        }
        BumpPositive(LanguageTally(init), last.language.value);
        assert LanguageTally(repos) == Bump(LanguageTally(init), last.language.value);
        assert Firsts(LanguageTally(repos)) == Dedup(xs);
      } else {
        assert LanguagesOf(repos) == LanguagesOf(init);
      }
    }
  }

  /** A dict with distinct keys reports each entry's own count. */
  lemma {:induction false} CountOfEntry(t: Tally, k: nat)
    requires NoDup(Firsts(t)) && k < |t|
    ensures CountOf(t, t[k].0) == t[k].1
    decreases |t|
  {
    if k > 0 {
      assert Firsts(t)[0] != Firsts(t)[k];
      assert NoDup(Firsts(t[1..])) by {
        forall i, j | 0 <= i < j < |t[1..]| ensures Firsts(t[1..])[i] != Firsts(t[1..])[j] {
          assert Firsts(t)[i + 1] != Firsts(t)[j + 1];
        }
      }
      CountOfEntry(t[1..], k - 1);
    }
  }

  /** The first index holding `lang` is the entry a bump updates in place. */
  lemma {:induction false} BumpAt(t: Tally, lang: string, j: nat)
    requires j < |t| && t[j].0 == lang && forall q :: 0 <= q < j ==> t[q].0 != lang
    ensures Bump(t, lang) == t[j := (lang, t[j].1 + 1)]
    decreases |t|
  {
    if j > 0 {
      BumpAt(t[1..], lang, j - 1);
      assert t[j := (lang, t[j].1 + 1)] == [t[0]] + t[1..][j - 1 := (lang, t[j].1 + 1)];
    }
  }

  /** A language not yet in the dict is appended. */
  lemma {:induction false} BumpNew(t: Tally, lang: string)
    requires forall q :: 0 <= q < |t| ==> t[q].0 != lang
    ensures Bump(t, lang) == t + [(lang, 1)]
    decreases |t|
  {
    if |t| > 0 {
      BumpNew(t[1..], lang);
      assert t + [(lang, 1)] == [t[0]] + (t[1..] + [(lang, 1)]);
    }
  }

  /** The loop over `repos_data` that fills `languages`. */
  method CountLanguages(repos: seq<Repo>) returns (languages: Tally)
    ensures languages == LanguageTally(repos)
  {
    languages := [];
    for i := 0 to |repos|
      invariant languages == LanguageTally(repos[..i])
    {
      assert repos[..i + 1][..i] == repos[..i];
      var lang := repos[i].language;
      if Truthy(lang) {
        var j := 0;
        while j < |languages| && languages[j].0 != lang.value
          invariant 0 <= j <= |languages|
          invariant forall q :: 0 <= q < j ==> languages[q].0 != lang.value
        {
          j := j + 1;
        }
        if j < |languages| {
          BumpAt(languages, lang.value, j);
          languages := languages[j := (lang.value, languages[j].1 + 1)];
        } else {
          BumpNew(languages, lang.value);
          languages := languages + [(lang.value, 1)];
        }
      }
    }
    assert repos[..|repos|] == repos;
  }

  function ByCount(p: (string, nat)): real { p.1 as real }

  function ByStars(r: Repo): real { r.stars as real }

  /** `sorted(languages.items(), key=count, reverse=True)[:5]`. */
  function TopLanguages(repos: seq<Repo>): Tally {
    PyTake(SortDesc(LanguageTally(repos), ByCount), 5)
  }

  /** `sorted(repos_data, key=stars, reverse=True)[:5]`. */
  function TopRepos(repos: seq<Repo>): seq<Repo> {
    PyTake(SortDesc(repos, ByStars), 5)
  }

  lemma PrefixSorted<T>(xs: seq<T>, n: nat, key: T -> real)
    requires SortedDesc(xs, key) && n <= |xs|
    ensures SortedDesc(xs[..n], key)
  {
    assert forall i :: 0 <= i < n ==> xs[..n][i] == xs[i];
  }

  /** The top languages: at most five distinct languages, by non-increasing
      count (a tie keeping the first-seen order of the counting loop), each
      with the number of repositories written in it. */
  lemma TopLanguagesSpec(repos: seq<Repo>)
    ensures var r := TopLanguages(repos);
      && |r| == (if |Dedup(LanguagesOf(repos))| < 5 then |Dedup(LanguagesOf(repos))| else 5)
      && SortedDesc(r, ByCount)
      && r <= SortDesc(LanguageTally(repos), ByCount)
      && (forall v :: WithKey(SortDesc(LanguageTally(repos), ByCount), ByCount, v) == WithKey(LanguageTally(repos), ByCount, v))
      && forall k :: 0 <= k < |r| ==> r[k].1 >= 1 && r[k].1 == multiset(LanguagesOf(repos))[r[k].0]
  {
    var t := LanguageTally(repos);
    var s := SortDesc(t, ByCount);
    var r := TopLanguages(repos);
    LanguageTallyExact(repos);
    SortDescSortedPermutation(t, ByCount);
    PrefixSorted(s, |r|, ByCount);
    forall v ensures WithKey(s, ByCount, v) == WithKey(t, ByCount, v) {
      SortDescStable(t, ByCount, v);
    }
    assert |Firsts(t)| == |t|;
    forall k | 0 <= k < |r|
      ensures r[k].1 >= 1 && r[k].1 == multiset(LanguagesOf(repos))[r[k].0]
    {
      assert r[k] == s[k];
      assert s[k] in multiset(t);
      var i :| 0 <= i < |t| && t[i] == s[k];
      CountOfEntry(t, i);
    }
  }

  /** The top repositories: at most five of them, by non-increasing stars (a
      tie keeping the input order), and no repository left out has more stars
      than one kept. */
  lemma TopReposSpec(repos: seq<Repo>)
    ensures var r := TopRepos(repos);
      && |r| == (if |repos| < 5 then |repos| else 5)
      && SortedDesc(r, ByStars)
      && r <= SortDesc(repos, ByStars)
      && (forall v :: WithKey(SortDesc(repos, ByStars), ByStars, v) == WithKey(repos, ByStars, v))
      && multiset(r) <= multiset(repos)
      && forall x, y :: x in multiset(repos) - multiset(r) && y in r ==> x.stars <= y.stars
  {
    var s := SortDesc(repos, ByStars);
    var r := TopRepos(repos);
    SortDescSortedPermutation(repos, ByStars);
    PrefixSorted(s, |r|, ByStars);
    forall v ensures WithKey(s, ByStars, v) == WithKey(repos, ByStars, v) {
      SortDescStable(repos, ByStars, v);
    }
    PrefixKeepsLargest(repos, ByStars, |r|);
    assert r == s[..|r|];
  }

  /** The profile dict built from the two answers. */
  function GitHubProfileOf(username: string, user: GitHubUser, repos: seq<Repo>, now: int): Scraped {
    GitHubProfile(username, user.name, user.publicRepos, user.followers, user.following,
      TotalStars(repos), TotalForks(repos), TopLanguages(repos), TopRepos(repos), now)
  }

  /** What the analyzer reads from a GitHub profile; `len(top_languages)` is the language count. */
  function GitHubStatsOf(p: Scraped): GitHubStats
    requires p.GitHubProfile?
  {
    GitHubStats(p.publicRepos, p.totalStars, p.followers, |p.topLanguages|, p.totalForks)
  }

  /** Because only five languages are kept, the analyzer's top language tier
      is reached exactly when the repositories use at least five distinct
      languages. */
  lemma LanguageTierNeedsFive(username: string, user: GitHubUser, repos: seq<Repo>, now: int)
    ensures var stats := GitHubStatsOf(GitHubProfileOf(username, user, repos, now));
      && stats.languageCount <= 5
      && (LanguagePoints(stats.languageCount) == 20 <==> |Dedup(LanguagesOf(repos))| >= 5)
  {
    TopLanguagesSpec(repos);
  }

  // ---------------------------------------------------------------- LeetCode aggregation

  /** The count of the last entry whose lowercased difficulty is in `names`, or 0. */
  function LastCount(stats: seq<SubmitStat>, names: set<string>): int
    decreases |stats|
  {
    if |stats| == 0 then 0
    else if LowerStr(stats[|stats| - 1].difficulty) in names then stats[|stats| - 1].count
    else LastCount(stats[..|stats| - 1], names)
  }

  /** `problems_solved` after the loop. `difficulty in problems_solved` tests
      the dict's keys, so a difficulty "total" also sets the total, as "all" does. */
  function ProblemsOf(stats: seq<SubmitStat>): Problems {
    Problems(LastCount(stats, {"all", "total"}), LastCount(stats, {"easy"}),
      LastCount(stats, {"medium"}), LastCount(stats, {"hard"}))
  }

  /** The last matching entry decides: later entries with other difficulties change nothing. */
  lemma {:induction false} LastCountIsLast(stats: seq<SubmitStat>, names: set<string>, k: nat)
    requires k < |stats| && LowerStr(stats[k].difficulty) in names
    requires forall j :: k < j < |stats| ==> LowerStr(stats[j].difficulty) !in names
    ensures LastCount(stats, names) == stats[k].count
    decreases |stats|
  {
    if k < |stats| - 1 {
      var init := stats[..|stats| - 1];
      assert init[k] == stats[k];
      LastCountIsLast(init, names, k);
    }
  }

  /** Without a matching entry the count stays at its initial 0. */
  lemma {:induction false} LastCountAbsent(stats: seq<SubmitStat>, names: set<string>)
    requires forall j :: 0 <= j < |stats| ==> LowerStr(stats[j].difficulty) !in names
    ensures LastCount(stats, names) == 0
    decreases |stats|
  {
    if |stats| > 0 {
      var init := stats[..|stats| - 1];
      assert forall j :: 0 <= j < |init| ==> init[j] == stats[j];
      LastCountAbsent(init, names);
    }
  }

  /** The loop over `acSubmissionNum`. */
  method FoldProblems(stats: seq<SubmitStat>) returns (problems: Problems)
    ensures problems == ProblemsOf(stats)
  {
    problems := Problems(0, 0, 0, 0);
    for i := 0 to |stats|
      invariant problems == ProblemsOf(stats[..i])
    {
      assert stats[..i + 1][..i] == stats[..i];
      var difficulty := LowerStr(stats[i].difficulty);
      var count := stats[i].count;
      if difficulty == "all" {
        problems := problems.(total := count);
      } else if difficulty == "total" {
        problems := problems.(total := count);
      } else if difficulty == "easy" {
        problems := problems.(easy := count);
      } else if difficulty == "medium" {
        problems := problems.(medium := count);
      } else if difficulty == "hard" {
        problems := problems.(hard := count);
      }
    }
    assert stats[..|stats|] == stats;
  }

  function LeetCodeProfileOf(username: string, user: LeetCodeUser, now: int): Scraped {
    LeetCodeProfile(username, user.realName, user.ranking, ProblemsOf(user.submitStats), now)
  }

  /** What the analyzer reads from a LeetCode profile. */
  function LeetCodeStatsOf(p: Scraped): LeetCodeStats
    requires p.LeetCodeProfile?
  {
    LeetCodeStats(p.problems, p.ranking)
  }

  // ---------------------------------------------------------------- cache

  datatype CacheEntry = CacheEntry(data: Scraped, timestamp: int)

  /** `_is_cached`'s answer: present and at most 24 hours old. */
  predicate CacheHit(cache: map<string, CacheEntry>, key: string, now: int) {
    key in cache && now - cache[key].timestamp <= CacheDuration
  }

  /** The cache after `_is_cached`: an expired entry for the key is deleted. */
  function AfterLookup(cache: map<string, CacheEntry>, key: string, now: int): map<string, CacheEntry> {
    if key in cache && !CacheHit(cache, key, now) then cache - {key} else cache
  }

  /** An entry is served until exactly 24 hours after it was stored, and not a
      microsecond longer. */
  lemma CacheWindow(cache: map<string, CacheEntry>, key: string, data: Scraped, stored: int, now: int)
    ensures CacheHit(cache[key := CacheEntry(data, stored)], key, now) <==> now <= stored + CacheDuration
  {
  }

  /** Storing at time t and looking up at t hits, returns the stored data and
      keeps the cache; the entries of other keys are unchanged. */
  lemma StoreThenLookup(cache: map<string, CacheEntry>, key: string, data: Scraped, t: int)
    ensures var c := cache[key := CacheEntry(data, t)];
      && CacheHit(c, key, t) && c[key].data == data && AfterLookup(c, key, t) == c
      && forall k :: k != key ==> (k in c <==> k in cache) && (k in cache ==> c[k] == cache[k])
  {
  }

  /** A lookup removes at most the looked-up key, and removes it exactly when it misses. */
  lemma LookupEvictsOnlyKey(cache: map<string, CacheEntry>, key: string, now: int)
    ensures var c := AfterLookup(cache, key, now);
      && (key in c <==> CacheHit(cache, key, now))
      && forall k :: k != key ==> (k in c <==> k in cache) && (k in cache ==> c[k] == cache[k])
  {
  }

  /** `ProfileScraper`: the cache is the only state it changes. */
  class Scraper {
    var cache: map<string, CacheEntry>

    constructor ()
      ensures cache == map[]
    {
      cache := map[];
    }

    /** `_is_cached`. */
    method IsCached(key: string, now: int) returns (hit: bool)
      modifies this
      ensures hit == CacheHit(old(cache), key, now)
      ensures cache == AfterLookup(old(cache), key, now)
    {
      if key !in cache {
        return false;
      }
      var cachedTime := cache[key].timestamp;
      if now - cachedTime > CacheDuration {
        cache := cache - {key};
        return false;
      }
      return true;
    }

    /** `_cache_data`. */
    method CacheData(key: string, data: Scraped, now: int)
      modifies this
      ensures cache == old(cache)[key := CacheEntry(data, now)]
    {
      cache := cache[key := CacheEntry(data, now)];
    }

    /** `clear_cache`. */
    method ClearCache()
      modifies this
      ensures cache == map[]
    {
      cache := map[];
    }

    /** `scrape_github_profile`, given the answers the two API requests would
        return (or the request error). A fresh cache entry is returned without
        looking at the answers; a successful scrape is cached, an error is not. */
    method ScrapeGitHub(username: string, now: int, answer: Result<(GitHubUser, seq<Repo>), string>) returns (r: Scraped)
      modifies this
      ensures var key := "github_" + username;
        CacheHit(old(cache), key, now) ==> r == old(cache)[key].data && cache == old(cache)
      ensures var key := "github_" + username;
        !CacheHit(old(cache), key, now) && answer.Failure? ==>
          r == ScrapeError(answer.error, username) && cache == AfterLookup(old(cache), key, now)
      ensures var key := "github_" + username;
        !CacheHit(old(cache), key, now) && answer.Success? ==>
          r == GitHubProfileOf(username, answer.value.0, answer.value.1, now)
          && cache == AfterLookup(old(cache), key, now)[key := CacheEntry(r, now)]
    {
      var key := "github_" + username;
      var hit := IsCached(key, now);
      if hit {
        return cache[key].data;
      }
      if answer.Failure? {
        return ScrapeError(answer.error, username);
      }
      var (user, repos) := answer.value;
      var languages := CountLanguages(repos);
      var topLanguages := PyTake(SortDesc(languages, ByCount), 5);
      r := GitHubProfile(username, user.name, user.publicRepos, user.followers, user.following,
        TotalStars(repos), TotalForks(repos), topLanguages, TopRepos(repos), now);
      CacheData(key, r, now);
    }

    /** `scrape_leetcode_profile`: an answer with errors or without a matched
        user gives "User not found", and neither it nor a request error is cached. */
    method ScrapeLeetCode(username: string, now: int, answer: Result<LeetCodeAnswer, string>) returns (r: Scraped)
      modifies this
      ensures var key := "leetcode_" + username;
        CacheHit(old(cache), key, now) ==> r == old(cache)[key].data && cache == old(cache)
      ensures var key := "leetcode_" + username;
        !CacheHit(old(cache), key, now) && answer.Failure? ==>
          r == ScrapeError(answer.error, username) && cache == AfterLookup(old(cache), key, now)
      ensures var key := "leetcode_" + username;
        !CacheHit(old(cache), key, now) && answer.Success? && (answer.value.hasErrors || answer.value.matchedUser.None?) ==>
          r == ScrapeError("User not found", username) && cache == AfterLookup(old(cache), key, now)
      ensures var key := "leetcode_" + username;
        !CacheHit(old(cache), key, now) && answer.Success? && !answer.value.hasErrors && answer.value.matchedUser.Some? ==>
          r == LeetCodeProfileOf(username, answer.value.matchedUser.value, now)
          && cache == AfterLookup(old(cache), key, now)[key := CacheEntry(r, now)]
    {
      var key := "leetcode_" + username;
      var hit := IsCached(key, now);
      if hit {
        return cache[key].data;
      }
      if answer.Failure? {
        return ScrapeError(answer.error, username);
      }
      var data := answer.value;
      if data.hasErrors || data.matchedUser.None? {
        return ScrapeError("User not found", username);
      }
      var user := data.matchedUser.value;
      var problems := FoldProblems(user.submitStats);
      r := LeetCodeProfile(username, user.realName, user.ranking, problems, now);
      CacheData(key, r, now);
    }
  }
}
