/** Tier scoring of GitHub and LeetCode statistics
    (`backend/services/profile_analyzer.py`): each analyzer adds tier points
    for a handful of statistics, collects insight messages, and attaches
    strengths and improvements lists that are never empty; the overall score
    blends the two at 60/40. The GPT-based recommendations are left out. */
module ProfileAnalyzer {
  import opened Wrappers
  import opened Text

  // ---------------------------------------------------------------- message lists

  /** `[m]` when the condition holds: one `append` under an `if`. */
  function When(c: bool, m: string): seq<string> {
    if c then [m] else []
  }

  /** `xs or [fallback]`. */
  function OrDefault(xs: seq<string>, fallback: string): (r: seq<string>)
    ensures |r| >= 1
    ensures |xs| > 0 ==> r == xs
    ensures |xs| == 0 ==> r == [fallback]
  {
    if |xs| > 0 then xs else [fallback]
  }

  // ---------------------------------------------------------------- analysis results

  /** An analysis: the `{'score': 0, 'error': ...}` short cut, or the full result. */
  datatype Analysis =
    | Failed(error: string)
    | Scored(score: int, insights: seq<string>, strengths: seq<string>, improvements: seq<string>)

  /** `analysis.get('score', 0)`: a failed analysis carries score 0; None is a missing key. */
  function ScoreOf(a: Option<Analysis>): int {
    match a
    case None => 0
    case Some(Failed(_)) => 0
    case Some(Scored(s, _, _, _)) => s
  }

  function Min100(x: int): int { if x < 100 then x else 100 }

  // ---------------------------------------------------------------- GitHub

  /** The statistics the scraper reports; `languageCount` is `len(top_languages)`. */
  datatype GitHubStats = GitHubStats(publicRepos: int, totalStars: int, followers: int, languageCount: nat, totalForks: int)

  function RepoPoints(repos: int): int {
    if repos >= 20 then 20 else if repos >= 10 then 15 else if repos >= 5 then 10 else 5
  }

  function StarPoints(stars: int): int {
    if stars >= 100 then 25 else if stars >= 50 then 20 else if stars >= 20 then 15 else 5
  }

  function FollowerPoints(followers: int): int {
    if followers >= 50 then 15 else if followers >= 20 then 10 else if followers >= 10 then 5 else 0
  }

  function LanguagePoints(count: nat): int {
    if count >= 5 then 20 else if count >= 3 then 15 else if count >= 2 then 10 else 0
  }

  function ForkPoints(forks: int): int {
    if forks >= 20 then 10 else if forks >= 10 then 7 else if forks >= 5 then 5 else 0
  }

  /** The flat account-age bonus. */
  const AccountAgePoints: int := 10

  /** The uncapped sum of the tier points; it already lies in [20, 100], so
      the cap at 100 never changes it. */
  function GitHubPoints(s: GitHubStats): (r: int)
    ensures 20 <= r <= 100
  {
    RepoPoints(s.publicRepos) + StarPoints(s.totalStars) + FollowerPoints(s.followers)
      + LanguagePoints(s.languageCount) + ForkPoints(s.totalForks) + AccountAgePoints
  }

  /** No statistic lowers the score by growing. */
  lemma GitHubPointsMonotone(a: GitHubStats, b: GitHubStats)
    requires a.publicRepos <= b.publicRepos && a.totalStars <= b.totalStars && a.followers <= b.followers
    requires a.languageCount <= b.languageCount && a.totalForks <= b.totalForks
    ensures GitHubPoints(a) <= GitHubPoints(b)
  {
  }

  // The insight messages, named so that a tier's branch and the function
  // describing it refer to the same string.
  const ExcellentRepoCount := "✅ Excellent repository count"
  const GoodRepoCount := "✅ Good number of repositories"
  const ConsiderMoreProjects := "⚠️ Consider creating more projects"
  const LowRepoCount := "⚠️ Low repository count - aim for 10+"
  const HighEngagement := "✅ High community engagement (100+ stars)"
  const GoodEngagement := "✅ Good community engagement"
  const ModerateEngagement := "⚠️ Moderate community engagement"
  const LowStars := "⚠️ Low stars - focus on quality projects"
  const StrongNetwork := "✅ Strong network"
  const BuildNetwork := "⚠️ Build your network - engage with other developers"
  const ExcellentDiversity := "✅ Excellent technology diversity"
  const GoodDiversity := "✅ Good technology diversity"
  const LearnLanguages := "⚠️ Learn more programming languages"
  const BeingForked := "✅ Projects are being forked"

  /** The repository tier's insight. */
  function RepoInsight(repos: int): string {
    if repos >= 20 then ExcellentRepoCount
    else if repos >= 10 then GoodRepoCount
    else if repos >= 5 then ConsiderMoreProjects
    else LowRepoCount
  }

  function StarInsight(stars: int): string {
    if stars >= 100 then HighEngagement
    else if stars >= 50 then GoodEngagement
    else if stars >= 20 then ModerateEngagement
    else LowStars
  }

  /** The middle follower tiers add points but no insight. */
  function FollowerInsight(followers: int): seq<string> {
    if followers >= 50 then [StrongNetwork]
    else if followers >= 10 then []
    else [BuildNetwork]
  }

  /** The two-language tier adds points but no insight. */
  function LanguageInsight(count: nat): seq<string> {
    if count >= 5 then [ExcellentDiversity]
    else if count >= 3 then [GoodDiversity]
    else if count >= 2 then []
    else [LearnLanguages]
  }

  /** The insights in the order the analyzer appends them: one per tier for
      repositories and stars, at most one for followers, languages and forks. */
  function GitHubInsights(s: GitHubStats): (r: seq<string>)
    ensures 2 <= |r| <= 5
    ensures r[0] == RepoInsight(s.publicRepos) && r[1] == StarInsight(s.totalStars)
  {
    [RepoInsight(s.publicRepos), StarInsight(s.totalStars)] + FollowerInsight(s.followers)
      + LanguageInsight(s.languageCount) + When(s.totalForks >= 20, BeingForked)
  }

  // The strengths and improvements of a GitHub profile.
  const QualityProjects := "High-quality projects with community recognition"
  const ProlificContributor := "Prolific contributor with many projects"
  const Versatile := "Versatile with multiple programming languages"
  const DeveloperNetwork := "Strong developer network"
  const ActivePresence := "Active GitHub presence"
  const MoreRepositories := "Create more public repositories (target: 15+)"
  const QualityFocus := "Focus on building quality projects that solve real problems"
  const Diversify := "Diversify your tech stack - learn 2-3 new languages"
  const EngageCommunity := "Engage with the community - contribute to open source"
  const MoreForkable := "Make your projects more useful and forkable"
  const KeepItUp := "Keep up the great work!"

  function GitHubStrengthList(s: GitHubStats): seq<string> {
    When(s.totalStars >= 50, QualityProjects)
      + When(s.publicRepos >= 15, ProlificContributor)
      + When(s.languageCount >= 4, Versatile)
      + When(s.followers >= 30, DeveloperNetwork)
  }

  function GitHubImprovementList(s: GitHubStats): seq<string> {
    When(s.publicRepos < 10, MoreRepositories)
      + When(s.totalStars < 20, QualityFocus)
      + When(s.languageCount < 3, Diversify)
      + When(s.followers < 20, EngageCommunity)
      + When(s.totalForks < 5, MoreForkable)
  }

  /** `_get_github_strengths`. */
  method GitHubStrengths(s: GitHubStats) returns (strengths: seq<string>)
    ensures strengths == OrDefault(GitHubStrengthList(s), ActivePresence)
    ensures |strengths| >= 1
  {
    strengths := [];
    if s.totalStars >= 50 {
      strengths := strengths + [QualityProjects];
    }
    ghost var one := When(s.totalStars >= 50, QualityProjects);
    assert strengths == one;
    if s.publicRepos >= 15 {
      strengths := strengths + [ProlificContributor];
    }
    ghost var two := one + When(s.publicRepos >= 15, ProlificContributor);
    assert strengths == two;
    if s.languageCount >= 4 {
      strengths := strengths + [Versatile];
    }
    ghost var three := two + When(s.languageCount >= 4, Versatile);
    assert strengths == three;
    if s.followers >= 30 {
      strengths := strengths + [DeveloperNetwork];
    }
    if |strengths| == 0 {
      strengths := [ActivePresence];
    }
  }

  /** `_get_github_improvements`; the score argument of the source is unused. */
  method GitHubImprovements(s: GitHubStats) returns (improvements: seq<string>)
    ensures improvements == OrDefault(GitHubImprovementList(s), KeepItUp)
    ensures |improvements| >= 1
  {
    improvements := [];
    if s.publicRepos < 10 {
      improvements := improvements + [MoreRepositories];
    }
    assert improvements == When(s.publicRepos < 10, MoreRepositories);
    if s.totalStars < 20 {
      improvements := improvements + [QualityFocus];
    }
    ghost var two := When(s.publicRepos < 10, MoreRepositories)
      + When(s.totalStars < 20, QualityFocus);
    assert improvements == two;
    if s.languageCount < 3 {
      improvements := improvements + [Diversify];
    }
    ghost var three := two + When(s.languageCount < 3, Diversify);
    assert improvements == three;
    if s.followers < 20 {
      improvements := improvements + [EngageCommunity];
    }
    ghost var four := three + When(s.followers < 20, EngageCommunity);
    assert improvements == four;
    if s.totalForks < 5 {
      improvements := improvements + [MoreForkable];
    }
    if |improvements| == 0 {
      improvements := [KeepItUp];
    }
  }

  /** A profile past every improvement threshold gets only the encouragement. */
  lemma StrongProfileNeedsNothing(s: GitHubStats)
    requires s.publicRepos >= 10 && s.totalStars >= 20 && s.languageCount >= 3
    requires s.followers >= 20 && s.totalForks >= 5
    ensures OrDefault(GitHubImprovementList(s), KeepItUp) == [KeepItUp]
  {
  }

  /** The repository block of `analyze_github_profile`: its points and the
      insight it appends. */
  method RepoTier(repos: int) returns (points: int, added: seq<string>)
    ensures points == RepoPoints(repos) && added == [RepoInsight(repos)]
  {
    if repos >= 20 {
      points, added := 20, [ExcellentRepoCount];
    } else if repos >= 10 {
      points, added := 15, [GoodRepoCount];
    } else if repos >= 5 {
      points, added := 10, [ConsiderMoreProjects];
    } else {
      points, added := 5, [LowRepoCount];
    }
  }

  /** The stars block. */
  method StarTier(stars: int) returns (points: int, added: seq<string>)
    ensures points == StarPoints(stars) && added == [StarInsight(stars)]
  {
    if stars >= 100 {
      points, added := 25, [HighEngagement];
    } else if stars >= 50 {
      points, added := 20, [GoodEngagement];
    } else if stars >= 20 {
      points, added := 15, [ModerateEngagement];
    } else {
      points, added := 5, [LowStars];
    }
  }

  /** The followers block. */
  method FollowerTier(followers: int) returns (points: int, added: seq<string>)
    ensures points == FollowerPoints(followers) && added == FollowerInsight(followers)
  {
    if followers >= 50 {
      points, added := 15, [StrongNetwork];
    } else if followers >= 20 {
      points, added := 10, [];
    } else if followers >= 10 {
      points, added := 5, [];
    } else {
      points, added := 0, [BuildNetwork];
    }
  }

  /** The language diversity block. */
  method LanguageTier(count: nat) returns (points: int, added: seq<string>)
    ensures points == LanguagePoints(count) && added == LanguageInsight(count)
  {
    if count >= 5 {
      points, added := 20, [ExcellentDiversity];
    } else if count >= 3 {
      points, added := 15, [GoodDiversity];
    } else if count >= 2 {
      points, added := 10, [];
    } else {
      points, added := 0, [LearnLanguages];
    }
  }

  /** The forks block. */
  method ForkTier(forks: int) returns (points: int, added: seq<string>)
    ensures points == ForkPoints(forks) && added == When(forks >= 20, BeingForked)
  {
    if forks >= 20 {
      points, added := 10, [BeingForked];
    } else if forks >= 10 {
      points, added := 7, [];
    } else if forks >= 5 {
      points, added := 5, [];
    } else {
      points, added := 0, [];
    }
  }

  /** The tier blocks of `analyze_github_profile` in order, each adding to
      `score` and appending to `insights`, then the flat bonus. */
  method GitHubTiers(s: GitHubStats) returns (score: int, insights: seq<string>)
    ensures score == GitHubPoints(s) && 20 <= score <= 100
    ensures insights == GitHubInsights(s)
  {
    score := 0;
    insights := [];
    var points, added := RepoTier(s.publicRepos);
    score, insights := score + points, insights + added;
    points, added := StarTier(s.totalStars);
    score, insights := score + points, insights + added;
    assert insights == [RepoInsight(s.publicRepos), StarInsight(s.totalStars)];
    points, added := FollowerTier(s.followers);
    score, insights := score + points, insights + added;
    points, added := LanguageTier(s.languageCount);
    score, insights := score + points, insights + added;
    points, added := ForkTier(s.totalForks);
    score, insights := score + points, insights + added;
    score := score + AccountAgePoints;
  }

  /** `analyze_github_profile`: an error short-circuits to score 0; otherwise
      the tier points, the insights and the two advice lists. */
  method AnalyzeGitHub(data: Result<GitHubStats, string>) returns (a: Analysis)
    ensures data.Failure? ==> a == Failed(data.error)
    ensures data.Success? ==>
      a == Scored(Min100(GitHubPoints(data.value)), GitHubInsights(data.value),
        OrDefault(GitHubStrengthList(data.value), ActivePresence),
        OrDefault(GitHubImprovementList(data.value), KeepItUp))
    ensures data.Success? ==> 20 <= a.score <= 100
  {
    if data.Failure? {
      return Failed(data.error);
    }
    var score, insights := GitHubTiers(data.value);
    var strengths := GitHubStrengths(data.value);
    var improvements := GitHubImprovements(data.value);
    a := Scored(Min100(score), insights, strengths, improvements);
  }

  // ---------------------------------------------------------------- LeetCode

  /** The `problems_solved` counts. */
  datatype Problems = Problems(total: int, easy: int, medium: int, hard: int)

  /** `ranking` is None when the profile reports none. */
  datatype LeetCodeStats = LeetCodeStats(problems: Problems, ranking: Option<int>)

  /** A ranking counts only when it is truthy: present and non-zero. */
  predicate RankingTruthy(ranking: Option<int>) { ranking.Some? && ranking.value != 0 }

  function TotalPoints(total: int): int {
    if total >= 300 then 40 else if total >= 200 then 35 else if total >= 100 then 30
    else if total >= 50 then 20 else 10
  }

  /** `(hard / total) * 100`, taken only when `total > 0`. */
  function HardRatio(hard: int, total: int): real
    requires total > 0
  {
    (hard as real / total as real) * 100.0
  }

  function HardPoints(total: int, hard: int): int {
    if total > 0 then
      var ratio := HardRatio(hard, total);
      if ratio >= 20.0 then 30 else if ratio >= 15.0 then 25 else if ratio >= 10.0 then 20 else 0
    else 0
  }

  function MediumPoints(medium: int): int {
    if medium >= 100 then 20 else if medium >= 50 then 15 else if medium >= 25 then 10 else 0
  }

  function RankingPoints(ranking: Option<int>): int {
    if RankingTruthy(ranking) && ranking.value <= 10000 then 10
    else if RankingTruthy(ranking) && ranking.value <= 50000 then 7
    else if RankingTruthy(ranking) && ranking.value <= 100000 then 5
    else 0
  }

  /** The uncapped sum; it lies in [10, 100], so the cap never changes it. */
  function LeetCodePoints(s: LeetCodeStats): (r: int)
    ensures 10 <= r <= 100
  {
    TotalPoints(s.problems.total) + HardPoints(s.problems.total, s.problems.hard)
      + MediumPoints(s.problems.medium) + RankingPoints(s.ranking)
  }

  /** `x / t >= c` exactly when `x >= c * t`, for positive `t`. */
  lemma DivAtLeast(x: real, t: real, c: real)
    requires t > 0.0
    ensures x / t >= c <==> x >= c * t
  {
    assert (x / t) * t == x;
    if x / t >= c {
      assert (x / t) * t >= c * t;
    } else {
      assert (x / t) * t < c * t;
    }
  }

  /** The hard-ratio tier in counts: with problems solved, 30 points exactly
      when at least a fifth are hard and some points exactly when at least a
      tenth are; with none, no points at all. */
  lemma HardPointsByCount(total: int, hard: int)
    ensures total <= 0 ==> HardPoints(total, hard) == 0
    ensures total > 0 ==> (HardPoints(total, hard) == 30 <==> 5 * hard >= total)
    ensures total > 0 ==> (HardPoints(total, hard) >= 20 <==> 10 * hard >= total)
  {
    if total > 0 {
      var t := total as real;
      var h := hard as real;
      assert HardRatio(hard, total) == (h * 100.0) / t;
      DivAtLeast(h * 100.0, t, 20.0);
      DivAtLeast(h * 100.0, t, 10.0);
    }
  }

  // The LeetCode insight messages.
  const ExceptionalSolving := "✅ Exceptional problem-solving skills (300+ problems)"
  const StrongSolving := "✅ Strong problem-solving skills"
  const GoodPractice := "✅ Good problem-solving practice"
  const ModeratePractice := "⚠️ Moderate practice - aim for 100+"
  const NeedPractice := "⚠️ Need more practice - target 50+ problems"
  const ExcellentHard := "✅ Excellent hard problem-solving ability"
  const GoodHardRatio := "✅ Good hard problem ratio"
  const SolveMoreHard := "⚠️ Solve more hard problems (target: 20% of total)"
  const StrongMedium := "✅ Strong medium-level problem solving"

  function TotalInsight(total: int): string {
    if total >= 300 then ExceptionalSolving
    else if total >= 200 then StrongSolving
    else if total >= 100 then GoodPractice
    else if total >= 50 then ModeratePractice
    else NeedPractice
  }

  /** The hard-ratio tier's insight; none without problems or in the 10–15% band. */
  function HardInsight(total: int, hard: int): seq<string> {
    if total > 0 then
      var ratio := HardRatio(hard, total);
      if ratio >= 20.0 then [ExcellentHard]
      else if ratio >= 15.0 then [GoodHardRatio]
      else if ratio >= 10.0 then []
      else [SolveMoreHard]
    else []
  }

  function LeetCodeInsights(s: LeetCodeStats): (r: seq<string>)
    ensures 1 <= |r| <= 4 && r[0] == TotalInsight(s.problems.total)
  {
    [TotalInsight(s.problems.total)] + HardInsight(s.problems.total, s.problems.hard)
      + When(s.problems.medium >= 100, StrongMedium)
      + When(RankingTruthy(s.ranking) && s.ranking.value <= 10000, "✅ Top ranking: " + IntToString(s.ranking.GetOr(0)))
  }

  function LeetCodeStrengthList(s: LeetCodeStats): seq<string> {
    When(s.problems.total >= 200, "Extensive problem-solving experience")
      + When(s.problems.hard >= 30, "Strong algorithmic thinking (hard problems)")
      + When(RankingTruthy(s.ranking) && s.ranking.value <= 50000, "Competitive ranking: " + IntToString(s.ranking.GetOr(0)))
  }

  /** The hard-ratio advice is guarded by `total > 0`: no division by zero. */
  function LeetCodeImprovementList(p: Problems): seq<string> {
    When(p.total < 100, "Solve more problems (current: " + IntToString(p.total) + ", target: 100+)")
      + When(p.total > 0 && p.hard as real / p.total as real < 0.15, "Increase hard problem ratio to 15-20%")
      + When(p.medium < 50, "Focus on medium-difficulty problems")
  }

  /** A ranking of None or 0 earns neither points, nor the ranking insight, nor
      the ranking strength. */
  lemma NoRankingNoCredit(s: LeetCodeStats)
    requires s.ranking == None || s.ranking == Some(0)
    ensures RankingPoints(s.ranking) == 0
    ensures LeetCodeStrengthList(s) ==
      When(s.problems.total >= 200, "Extensive problem-solving experience")
        + When(s.problems.hard >= 30, "Strong algorithmic thinking (hard problems)")
    ensures |LeetCodeInsights(s)| <= 3
  {
  }

  /** `_get_leetcode_strengths`. */
  method LeetCodeStrengths(s: LeetCodeStats) returns (strengths: seq<string>)
    ensures strengths == OrDefault(LeetCodeStrengthList(s), "Active LeetCode practice")
    ensures |strengths| >= 1
  {
    strengths := [];
    if s.problems.total >= 200 {
      strengths := strengths + ["Extensive problem-solving experience"];
    }
    if s.problems.hard >= 30 {
      strengths := strengths + ["Strong algorithmic thinking (hard problems)"];
    }
    if RankingTruthy(s.ranking) && s.ranking.value <= 50000 {
      strengths := strengths + ["Competitive ranking: " + IntToString(s.ranking.value)];
    }
    if |strengths| == 0 {
      strengths := ["Active LeetCode practice"];
    }
  }

  /** `_get_leetcode_improvements`. */
  method LeetCodeImprovements(p: Problems) returns (improvements: seq<string>)
    ensures improvements == OrDefault(LeetCodeImprovementList(p), "Maintain consistent practice")
    ensures |improvements| >= 1
  {
    improvements := [];
    if p.total < 100 {
      improvements := improvements + ["Solve more problems (current: " + IntToString(p.total) + ", target: 100+)"];
    }
    if p.total > 0 && p.hard as real / p.total as real < 0.15 {
      improvements := improvements + ["Increase hard problem ratio to 15-20%"];
    }
    if p.medium < 50 {
      improvements := improvements + ["Focus on medium-difficulty problems"];
    }
    if |improvements| == 0 {
      improvements := ["Maintain consistent practice"];
    }
  }

  /** The tier part of `analyze_leetcode_profile`. */
  method LeetCodeTiers(s: LeetCodeStats) returns (score: int, insights: seq<string>)
    ensures score == LeetCodePoints(s) && 10 <= score <= 100
    ensures insights == LeetCodeInsights(s)
  {
    score := 0;
    insights := [];
    var total := s.problems.total;
    var medium := s.problems.medium;
    var hard := s.problems.hard;

    if total >= 300 {
      score := score + 40;
      insights := insights + [ExceptionalSolving];
    } else if total >= 200 {
      score := score + 35;
      insights := insights + [StrongSolving];
    } else if total >= 100 {
      score := score + 30;
      insights := insights + [GoodPractice];
    } else if total >= 50 {
      score := score + 20;
      insights := insights + [ModeratePractice];
    } else {
      score := score + 10;
      insights := insights + [NeedPractice];
    }
    assert score == TotalPoints(total) && insights == [TotalInsight(total)];

    if total > 0 {
      var hardRatio := (hard as real / total as real) * 100.0;
      if hardRatio >= 20.0 {
        score := score + 30;
        insights := insights + [ExcellentHard];
      } else if hardRatio >= 15.0 {
        score := score + 25;
        insights := insights + [GoodHardRatio];
      } else if hardRatio >= 10.0 {
        score := score + 20;
      } else {
        insights := insights + [SolveMoreHard];
      }
    }
    ghost var sofar := [TotalInsight(total)] + HardInsight(total, hard);
    assert score == TotalPoints(total) + HardPoints(total, hard);
    assert insights == sofar;

    if medium >= 100 {
      score := score + 20;
      insights := insights + [StrongMedium];
    } else if medium >= 50 {
      score := score + 15;
    } else if medium >= 25 {
      score := score + 10;
    }
    sofar := sofar + When(medium >= 100, StrongMedium);
    assert score == TotalPoints(total) + HardPoints(total, hard) + MediumPoints(medium);
    assert insights == sofar;

    var ranking := s.ranking;
    if RankingTruthy(ranking) && ranking.value <= 10000 {
      score := score + 10;
      insights := insights + ["✅ Top ranking: " + IntToString(ranking.value)];
    } else if RankingTruthy(ranking) && ranking.value <= 50000 {
      score := score + 7;
    } else if RankingTruthy(ranking) && ranking.value <= 100000 {
      score := score + 5;
    }
  }

  /** `analyze_leetcode_profile`: an error short-circuits to score 0. */
  method AnalyzeLeetCode(data: Result<LeetCodeStats, string>) returns (a: Analysis)
    ensures data.Failure? ==> a == Failed(data.error)
    ensures data.Success? ==>
      a == Scored(Min100(LeetCodePoints(data.value)), LeetCodeInsights(data.value),
        OrDefault(LeetCodeStrengthList(data.value), "Active LeetCode practice"),
        OrDefault(LeetCodeImprovementList(data.value.problems), "Maintain consistent practice"))
    ensures data.Success? ==> 10 <= a.score <= 100
  {
    if data.Failure? {
      return Failed(data.error);
    }
    var score, insights := LeetCodeTiers(data.value);
    var strengths := LeetCodeStrengths(data.value);
    var improvements := LeetCodeImprovements(data.value.problems);
    a := Scored(Min100(score), insights, strengths, improvements);
  }

  // ---------------------------------------------------------------- overall

  /** Round to nearest, halves up. */
  function Round(x: real): int {
    (x + 0.5).Floor
  }

  /** `round(github * 0.6 + leetcode * 0.4)`, a missing score read as 0. */
  function OverallScore(github: Option<Analysis>, leetcode: Option<Analysis>): (r: int)
    ensures 0 <= ScoreOf(github) <= 100 && 0 <= ScoreOf(leetcode) <= 100 ==> 0 <= r <= 100
  {
    Round(ScoreOf(github) as real * 0.6 + ScoreOf(leetcode) as real * 0.4)
  }

  /** The blend of two integer scores is a multiple of 0.2, so it never lies
      half-way between two integers: rounding halves up, as `Round` does, and
      Python's rounding of halves to even give the same result. */
  lemma BlendNeverHalf(g: int, l: int, n: int)
    ensures g as real * 0.6 + l as real * 0.4 != n as real + 0.5
  {
  }

  /** A higher score on either side never lowers the overall score. */
  lemma OverallMonotone(g1: int, l1: int, g2: int, l2: int)
    requires g1 <= g2 && l1 <= l2
    ensures Round(g1 as real * 0.6 + l1 as real * 0.4) <= Round(g2 as real * 0.6 + l2 as real * 0.4)
  {
  }
}
