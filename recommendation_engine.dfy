/** Job recommendation scoring and ranking (`backend/services/recommendation_engine.py`).

    A job's score is a fixed-weight blend of four sub-scores in [0, 1]: skill
    similarity, experience fit, posting freshness and location fit. Jobs scoring
    at least the threshold are ranked by score, highest first, and the first
    `limit` are returned. Scores are exact reals. The TF-IDF/cosine skill
    similarity is computed by a foreign library and is a parameter here; the
    age of a posting in days is computed from the clock by the caller. */
module RecommendationEngine {
  import opened Wrappers
  import opened Text
  import opened Sorting

  const SkillWeight: real := 0.5
  const ExperienceWeight: real := 0.25
  const FreshnessWeight: real := 0.15
  const LocationWeight: real := 0.1
  /** Minimum score for a job to be recommended. */
  const Threshold: real := 0.6

  /** The similarity of two skill lists, as the TF-IDF vectoriser and cosine similarity compute it. */
  type Similarity = (seq<string>, seq<string>) -> real

  /** Skill similarity, with the guard for an empty list on either side. */
  function SkillMatch(userSkills: seq<string>, jobSkills: seq<string>, similarity: Similarity): (r: real)
    ensures |userSkills| == 0 || |jobSkills| == 0 ==> r == 0.0
  {
    if |userSkills| == 0 || |jobSkills| == 0 then 0.0 else similarity(userSkills, jobSkills)
  }

  function Years(months: int): real {
    months as real / 12.0
  }

  /** The job's experience bounds (in years, either may be absent) admit `years`. */
  predicate Admits(years: real, min: Option<int>, max: Option<int>) {
    (min.None? || years >= min.value as real) && (max.None? || years <= max.value as real)
  }

  /** Experience fit: full marks inside the bounds, the ratio `years/min` below the
      minimum, and above the maximum `max/years`, never less than 0.7 when both
      bounds are given. */
  function ExperienceMatch(months: int, min: Option<int>, max: Option<int>): (r: real)
    ensures r == 1.0 <==> Admits(Years(months), min, max)
    ensures r <= 1.0
    ensures (min.Some? && max.Some? && Years(months) >= min.value as real && Years(months) > max.value as real
             && Years(months) > 0.0) ==> r >= 0.7
    ensures months >= 0 && (min.None? || min.value >= 0) && (max.None? || max.value >= 0) ==> r >= 0.0
  {
    var years := Years(months);
    if min.None? && max.None? then 1.0
    else if max.None? then
      var lo := min.value as real;
      if years >= lo then 1.0
      else if lo > 0.0 then Ratio(years, lo)
      else 0.0
    else if min.None? then
      var hi := max.value as real;
      if years <= hi then 1.0
      else if years > 0.0 then Ratio(hi, years)
      else 0.0
    else
      var lo := min.value as real;
      var hi := max.value as real;
      if lo <= years <= hi then 1.0
      else if years < lo then (if lo > 0.0 then Ratio(years, lo) else 0.0)
      else if years > 0.0 then (if Ratio(hi, years) > 0.7 then Ratio(hi, years) else 0.7)
      else 0.0
  }

  /** `a / b` for `0 < b` and `a < b`: a ratio below one. */
  function Ratio(a: real, b: real): (r: real)
    requires 0.0 < b && a < b
    ensures r < 1.0
    ensures a >= 0.0 ==> r >= 0.0
    ensures r * b == a
  {
    a / b
  }

  /** Posting freshness from the age in days: full marks for a week, then a
      linear fall to 0.5 at 30 days and on to 0.1 at 90 days, floored at 0.1.
      A posting without a date scores 0.5. */
  function Freshness(daysOld: Option<int>): (r: real)
    ensures 0.1 <= r <= 1.0
  {
    match daysOld
    case None => 0.5
    case Some(d) =>
      if d <= 7 then 1.0
      else if d <= 30 then 1.0 - ((d - 7) as real / 23.0) * 0.5
      else
        var decayed := 0.5 - ((d - 30) as real / 60.0) * 0.4;
        if decayed > 0.1 then decayed else 0.1
  }

  lemma FreshnessAnchors()
    ensures Freshness(None) == 0.5
    ensures Freshness(Some(7)) == 1.0
    ensures Freshness(Some(30)) == 0.5
    ensures Freshness(Some(90)) == 0.1
  {
  }

  /** An older posting never scores higher. */
  lemma FreshnessNonIncreasing(d1: int, d2: int)
    requires d1 <= d2
    ensures Freshness(Some(d2)) <= Freshness(Some(d1))
  {
    if 7 < d1 <= 30 && d2 > 30 {
      assert Freshness(Some(d1)) >= 0.5;
    }
  }

  /** From 90 days on, every posting scores the floor. */
  lemma FreshnessFloor(d: int)
    requires d >= 90
    ensures Freshness(Some(d)) == 0.1
  {
  }

  /** Location fit: a job without a location fits everyone, a user without one
      half-fits; otherwise case-insensitive equality, then containment either
      way, then a low default. */
  function LocationMatch(user: Option<string>, job: Option<string>): (r: real)
    ensures r == 0.3 || r == 0.5 || r == 0.8 || r == 1.0
    ensures !Truthy(job) ==> r == 1.0
    ensures Truthy(job) && !Truthy(user) ==> r == 0.5
    ensures Truthy(job) && Truthy(user) ==>
      var u := LowerStr(user.value);
      var j := LowerStr(job.value);
      && (r == 1.0 <==> u == j)
      && (r == 0.8 <==> u != j && (Contains(j, u) || Contains(u, j)))
      && (r == 0.3 <==> u != j && !Contains(j, u) && !Contains(u, j))
  {
    if !Truthy(job) then 1.0
    else if !Truthy(user) then 0.5
    else
      var u := LowerStr(user.value);
      var j := LowerStr(job.value);
      if u == j then 1.0
      else if Contains(j, u) || Contains(u, j) then 0.8
      else 0.3
  }

  /** When both locations are given, the score does not depend on which is the user's. */
  lemma LocationSymmetric(a: string, b: string)
    requires |a| > 0 && |b| > 0
    ensures LocationMatch(Some(a), Some(b)) == LocationMatch(Some(b), Some(a))
  {
  }

  lemma LowerIdempotent(s: string)
    ensures LowerStr(LowerStr(s)) == LowerStr(s)
  {
  }

  /** Location comparison ignores case. */
  lemma LocationIgnoresCase(user: string, job: Option<string>)
    ensures LocationMatch(Some(LowerStr(user)), job) == LocationMatch(Some(user), job)
    ensures LocationMatch(job, Some(LowerStr(user))) == LocationMatch(job, Some(user))
  {
    LowerIdempotent(user);
  }

  /** Full location marks for a located job mean the two names agree up to case. */
  lemma LocationFullMeansSame(user: Option<string>, job: string)
    requires |job| > 0 && Truthy(user)
    ensures LocationMatch(user, Some(job)) == 1.0 <==> LowerStr(user.value) == LowerStr(job)
  {
  }

  /** The weighted blend of the four sub-scores. */
  function WeightedScore(skill: real, experience: real, freshness: real, location: real): (r: real)
    ensures 0.0 <= skill <= 1.0 && 0.0 <= experience <= 1.0 && 0.0 <= freshness <= 1.0 && 0.0 <= location <= 1.0
      ==> 0.0 <= r <= 1.0
  {
    skill * SkillWeight + experience * ExperienceWeight + freshness * FreshnessWeight + location * LocationWeight
  }

  /** Raising any sub-score never lowers the blend. */
  lemma WeightedScoreMonotone(s1: real, e1: real, f1: real, l1: real, s2: real, e2: real, f2: real, l2: real)
    requires s1 <= s2 && e1 <= e2 && f1 <= f2 && l1 <= l2
    ensures WeightedScore(s1, e1, f1, l1) <= WeightedScore(s2, e2, f2, l2)
  {
  }

  /** The blend is 1 exactly when all four sub-scores are (for sub-scores in [0, 1]). */
  lemma WeightedScoreFull(s: real, e: real, f: real, l: real)
    requires 0.0 <= s <= 1.0 && 0.0 <= e <= 1.0 && 0.0 <= f <= 1.0 && 0.0 <= l <= 1.0
    ensures WeightedScore(s, e, f, l) == 1.0 <==> s == 1.0 && e == 1.0 && f == 1.0 && l == 1.0
  {
  }

  /** Reaching the threshold takes a skill similarity of at least 0.2: the other
      three weights add up to only 0.5. So a job listing no skills, or a user
      without skills, is never recommended. */
  lemma ThresholdNeedsSkills(s: real, e: real, f: real, l: real)
    requires e <= 1.0 && f <= 1.0 && l <= 1.0
    requires WeightedScore(s, e, f, l) >= Threshold
    ensures s >= 0.2
  {
  }

  /** One line of the explanation: the sub-score, its weight and its contribution, in percent. */
  datatype Part = Part(score: real, weight: real, contribution: real)

  datatype Explanation = Explanation(finalScore: real, skill: Part, experience: Part, freshness: Part, location: Part)

  function Explain(skill: real, experience: real, freshness: real, location: real, finalScore: real): (x: Explanation)
    ensures x.skill.weight + x.experience.weight + x.freshness.weight + x.location.weight == 100.0
    ensures x.skill.contribution + x.experience.contribution + x.freshness.contribution + x.location.contribution
      == WeightedScore(skill, experience, freshness, location) * 100.0
    ensures x.finalScore == finalScore * 100.0
    ensures x.skill.score == skill * 100.0 && x.experience.score == experience * 100.0
    ensures x.freshness.score == freshness * 100.0 && x.location.score == location * 100.0
    ensures x.skill.weight == 50.0 && x.experience.weight == 25.0
    ensures x.freshness.weight == 15.0 && x.location.weight == 10.0
    ensures x.skill.contribution == x.skill.score * x.skill.weight / 100.0
    ensures x.experience.contribution == x.experience.score * x.experience.weight / 100.0
    ensures x.freshness.contribution == x.freshness.score * x.freshness.weight / 100.0
    ensures x.location.contribution == x.location.score * x.location.weight / 100.0
  {
    Explanation(
      finalScore * 100.0,
      Part(skill * 100.0, SkillWeight * 100.0, skill * SkillWeight * 100.0),
      Part(experience * 100.0, ExperienceWeight * 100.0, experience * ExperienceWeight * 100.0),
      Part(freshness * 100.0, FreshnessWeight * 100.0, freshness * FreshnessWeight * 100.0),
      Part(location * 100.0, LocationWeight * 100.0, location * LocationWeight * 100.0))
  }

  /** A job posting: `daysOld` is the whole days since it was posted (None when
      it has no posting date), taken from the clock by the caller. */
  datatype Job = Job(
    id: int, status: string, requiredSkills: Option<seq<string>>,
    experienceMin: Option<int>, experienceMax: Option<int>,
    daysOld: Option<int>, location: Option<string>)

  /** What the engine reads about the user from their active resume and account. */
  datatype UserProfile = UserProfile(skills: seq<string>, experienceMonths: int, location: Option<string>)

  datatype Recommendation = Recommendation(job: Job, score: real, explanation: Explanation)

  function ScoreOf(r: Recommendation): real { r.score }

  function SkillScore(user: UserProfile, job: Job, similarity: Similarity): real {
    SkillMatch(user.skills, job.requiredSkills.GetOr([]), similarity)
  }

  /** The final score of a job for a user. */
  function ScoreJob(user: UserProfile, job: Job, similarity: Similarity): (r: real)
    ensures r <= SkillWeight * SkillScore(user, job, similarity) + 0.5
    ensures r >= Threshold ==> SkillScore(user, job, similarity) >= 0.2
    ensures |user.skills| == 0 || |job.requiredSkills.GetOr([])| == 0 ==> r < Threshold
  {
    var s := SkillScore(user, job, similarity);
    var e := ExperienceMatch(user.experienceMonths, job.experienceMin, job.experienceMax);
    var f := Freshness(job.daysOld);
    var l := LocationMatch(user.location, job.location);
    var w := WeightedScore(s, e, f, l);
    if w >= Threshold then ThresholdNeedsSkills(s, e, f, l); w else w
  }

  function ExplainJob(user: UserProfile, job: Job, similarity: Similarity): Explanation {
    Explain(
      SkillScore(user, job, similarity),
      ExperienceMatch(user.experienceMonths, job.experienceMin, job.experienceMax),
      Freshness(job.daysOld),
      LocationMatch(user.location, job.location),
      ScoreJob(user, job, similarity))
  }

  /** The jobs with status 'active', in catalog order. */
  function ActiveJobs(catalog: seq<Job>): (r: seq<Job>)
    ensures forall j :: j in r <==> j in catalog && j.status == "active"
    decreases |catalog|
  {
    if |catalog| == 0 then []
    else
      var last := catalog[|catalog| - 1];
      assert catalog == catalog[..|catalog| - 1] + [last];
      ActiveJobs(catalog[..|catalog| - 1]) + (if last.status == "active" then [last] else [])
  }

  /** The recommendations the loop collects from `jobs`, in job order: one per
      job scoring at least the threshold. */
  function Candidates(user: UserProfile, jobs: seq<Job>, similarity: Similarity): seq<Recommendation>
    decreases |jobs|
  {
    if |jobs| == 0 then []
    else
      var job := jobs[|jobs| - 1];
      var score := ScoreJob(user, job, similarity);
      Candidates(user, jobs[..|jobs| - 1], similarity)
        + (if score >= Threshold then [Recommendation(job, score, ExplainJob(user, job, similarity))] else [])
  }

  /** Every candidate comes from `jobs`, carries its job's score and explanation,
      and that score reaches the threshold; every job that reaches it has a candidate. */
  lemma {:induction false} CandidatesExact(user: UserProfile, jobs: seq<Job>, similarity: Similarity)
    ensures forall r :: r in Candidates(user, jobs, similarity) ==>
      r.job in jobs && r.score == ScoreJob(user, r.job, similarity) && r.score >= Threshold
        && r.explanation == ExplainJob(user, r.job, similarity)
    ensures forall j :: j in jobs && ScoreJob(user, j, similarity) >= Threshold ==>
      exists r :: r in Candidates(user, jobs, similarity) && r.job == j
    decreases |jobs|
  {
    if |jobs| > 0 {
      var init := jobs[..|jobs| - 1];
      CandidatesExact(user, init, similarity);
      assert jobs == init + [jobs[|jobs| - 1]];
      var c := Candidates(user, jobs, similarity);
      forall j | j in jobs && ScoreJob(user, j, similarity) >= Threshold
        ensures exists r :: r in c && r.job == j
      {
        if j in init {
          var r :| r in Candidates(user, init, similarity) && r.job == j;
          assert r in c;
        } else {
          assert c[|c| - 1].job == j;
        }
      }
    }
  }

  /** All qualifying recommendations, highest score first (ties in catalog order). */
  function Ranked(user: UserProfile, catalog: seq<Job>, similarity: Similarity): seq<Recommendation> {
    SortDesc(Candidates(user, ActiveJobs(catalog), similarity), ScoreOf)
  }

  /** What `recommend_jobs` returns: nothing for a user without skills, else the
      first `limit` ranked recommendations (Python slicing, so a negative limit
      drops that many from the end). */
  function Recommend(user: UserProfile, catalog: seq<Job>, limit: int, similarity: Similarity): seq<Recommendation> {
    if |user.skills| == 0 then [] else PyTake(Ranked(user, catalog, similarity), limit)
  }

  /** `recommend_jobs`: score each active job, keep those at or above the
      threshold, sort by score descending and keep the first `limit`. */
  method RecommendJobs(user: UserProfile, catalog: seq<Job>, limit: int, similarity: Similarity)
    returns (recommendations: seq<Recommendation>)
    ensures recommendations == Recommend(user, catalog, limit, similarity)
    ensures |user.skills| == 0 ==> recommendations == []
  {
    if |user.skills| == 0 {
      return [];
    }
    var jobs := ActiveJobs(catalog);
    recommendations := [];
    for i := 0 to |jobs|
      invariant recommendations == Candidates(user, jobs[..i], similarity)
    {
      var job := jobs[i];
      var skillScore := SkillMatch(user.skills, job.requiredSkills.GetOr([]), similarity);
      var expScore := ExperienceMatch(user.experienceMonths, job.experienceMin, job.experienceMax);
      var freshnessScore := Freshness(job.daysOld);
      var locationScore := LocationMatch(user.location, job.location);
      var finalScore := WeightedScore(skillScore, expScore, freshnessScore, locationScore);
      if finalScore >= Threshold {
        var explanation := Explain(skillScore, expScore, freshnessScore, locationScore, finalScore);
        recommendations := recommendations + [Recommendation(job, finalScore, explanation)];
      }
      assert jobs[..i + 1][..i] == jobs[..i];
    }
    assert jobs[..|jobs|] == jobs;
    recommendations := SortDesc(recommendations, ScoreOf);
    recommendations := PyTake(recommendations, limit);
  }

  /** Every recommendation is an active catalog job whose score is its blended
      score and reaches the threshold; the list is in non-increasing score
      order and has at most `limit` entries when `limit` is not negative. */
  lemma RecommendSound(user: UserProfile, catalog: seq<Job>, limit: int, similarity: Similarity)
    ensures var rs := Recommend(user, catalog, limit, similarity);
      && (forall r :: r in rs ==>
            r.job in catalog && r.job.status == "active"
            && r.score == ScoreJob(user, r.job, similarity) && r.score >= Threshold
            && r.explanation == ExplainJob(user, r.job, similarity))
      && SortedDesc(rs, ScoreOf)
      && (limit >= 0 ==> |rs| <= limit)
  {
    var cands := Candidates(user, ActiveJobs(catalog), similarity);
    CandidatesExact(user, ActiveJobs(catalog), similarity);
    SortDescSortedPermutation(cands, ScoreOf);
    var ranked := Ranked(user, catalog, similarity);
    var rs := Recommend(user, catalog, limit, similarity);
    forall r | r in rs
      ensures r in cands
    {
      assert r in ranked;
      assert r in multiset(ranked);
    }
  }

  /** With a limit that does not cut the list, every active job that reaches
      the threshold is recommended. */
  lemma RecommendComplete(user: UserProfile, catalog: seq<Job>, limit: int, similarity: Similarity, job: Job)
    requires |user.skills| > 0 && limit >= |catalog|
    requires job in catalog && job.status == "active" && ScoreJob(user, job, similarity) >= Threshold
    ensures exists r :: r in Recommend(user, catalog, limit, similarity) && r.job == job
  {
    var cands := Candidates(user, ActiveJobs(catalog), similarity);
    CandidatesExact(user, ActiveJobs(catalog), similarity);
    SortDescSortedPermutation(cands, ScoreOf);
    CandidatesLength(user, ActiveJobs(catalog), similarity);
    ActiveJobsLength(catalog);
    var r :| r in cands && r.job == job;
    assert r in multiset(Ranked(user, catalog, similarity));
  }

  lemma {:induction false} CandidatesLength(user: UserProfile, jobs: seq<Job>, similarity: Similarity)
    ensures |Candidates(user, jobs, similarity)| <= |jobs|
    decreases |jobs|
  {
    if |jobs| > 0 {
      CandidatesLength(user, jobs[..|jobs| - 1], similarity);
    }
  }

  lemma {:induction false} ActiveJobsLength(catalog: seq<Job>)
    ensures |ActiveJobs(catalog)| <= |catalog|
    decreases |catalog|
  {
    if |catalog| > 0 {
      ActiveJobsLength(catalog[..|catalog| - 1]);
    }
  }

  /** Recommendations with equal scores keep the catalog order of their jobs. */
  lemma RankedTiesKeepCatalogOrder(user: UserProfile, catalog: seq<Job>, similarity: Similarity, v: real)
    ensures WithKey(Ranked(user, catalog, similarity), ScoreOf, v)
      == WithKey(Candidates(user, ActiveJobs(catalog), similarity), ScoreOf, v)
  {
    SortDescStable(Candidates(user, ActiveJobs(catalog), similarity), ScoreOf, v);
  }
}
