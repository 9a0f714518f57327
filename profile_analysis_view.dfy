/** The pure pieces of the profile analysis page,
    `frontend/scripts/profile-analysis.js`: the description of the overall
    score, the four profile link cards, the insight lists, the recommendation
    badges, and the problems chart that the page replaces on every render. */
module ProfileAnalysisView {
  import opened Wrappers
  import opened Text

  // ---------------------------------------------------------------- the overall score

  const Excellent := "🌟 Excellent! Your profile is highly competitive."
  const Good := "✅ Good! You have a strong foundation."
  const Moderate := "📈 Moderate. Focus on the recommendations below."
  const NeedsImprovement := "⚠️ Needs improvement. Follow the action items."
  const GettingStarted := "🚀 Getting started. Build your profile with our recommendations."

  /** The descriptions from the lowest tier to the highest. */
  const Tiers: seq<string> := [GettingStarted, NeedsImprovement, Moderate, Good, Excellent]

  /** `getScoreDescription`: the first tier met among 80, 60, 40 and 20. */
  function ScoreDescription(score: real): (r: string)
    ensures r == Excellent <==> score >= 80.0
    ensures r == Good <==> 60.0 <= score < 80.0
    ensures r == Moderate <==> 40.0 <= score < 60.0
    ensures r == NeedsImprovement <==> 20.0 <= score < 40.0
    ensures r == GettingStarted <==> score < 20.0
  {
    if score >= 80.0 then Excellent
    else if score >= 60.0 then Good
    else if score >= 40.0 then Moderate
    else if score >= 20.0 then NeedsImprovement
    else GettingStarted
  }

  /** The position of a description in `Tiers`. */
  function TierRank(description: string): nat {
    if description == Excellent then 4
    else if description == Good then 3
    else if description == Moderate then 2
    else if description == NeedsImprovement then 1
    else 0
  }

  /** A higher score never gets a lower tier. */
  lemma ScoreDescriptionMonotone(a: real, b: real)
    requires a <= b
    ensures TierRank(ScoreDescription(a)) <= TierRank(ScoreDescription(b))
    ensures Tiers[TierRank(ScoreDescription(a))] == ScoreDescription(a)
  {
  }

  /** `report.overall_score || 0`. */
  function ScoreOrZero(score: Option<real>): (r: real)
    ensures score.None? ==> r == 0.0
    ensures score.Some? ==> r == score.value
  {
    if score.Some? && score.value != 0.0 then score.value else 0.0
  }

  // ---------------------------------------------------------------- profile links

  datatype Profile = Profile(
    githubUsername: Option<string>, leetcodeUsername: Option<string>,
    linkedinUrl: Option<string>, portfolioUrl: Option<string>)

  datatype LinkCard = LinkCard(platform: string, username: Option<string>, url: Option<string>) {
    /** A card is drawn as connected when it has a username. */
    predicate Connected() { Truthy(username) }
    /** The "View Profile" anchor appears on a connected card with a URL. */
    predicate HasAnchor() { Connected() && Truthy(url) }
  }

  /** A URL on a platform, only when there is a username to put in it. */
  function UrlFor(base: string, username: Option<string>): Option<string> {
    if Truthy(username) then Some(base + username.value) else None
  }

  function ConnectedIf(value: Option<string>): Option<string> {
    if Truthy(value) then Some("Connected") else None
  }

  /** The four cards of `renderProfileLinks`. */
  function ProfileLinks(p: Profile): (cards: seq<LinkCard>)
    ensures |cards| == 4
    ensures cards[0].Connected() <==> Truthy(p.githubUsername)
    ensures cards[0].url.Some? <==> Truthy(p.githubUsername)
    ensures cards[0].url.Some? ==> cards[0].url.value == "https://github.com/" + p.githubUsername.value
    ensures cards[1].Connected() <==> Truthy(p.leetcodeUsername)
    ensures cards[1].url.Some? <==> Truthy(p.leetcodeUsername)
    ensures cards[1].url.Some? ==> cards[1].url.value == "https://leetcode.com/" + p.leetcodeUsername.value
    ensures cards[2].Connected() <==> Truthy(p.linkedinUrl)
    ensures cards[2].Connected() ==>
      cards[2].username == Some("Connected") && cards[2].url == Some("https://" + p.linkedinUrl.value)
    ensures cards[3].Connected() <==> Truthy(p.portfolioUrl)
    ensures cards[3].url == p.portfolioUrl
  {
    [ LinkCard("GitHub", p.githubUsername, UrlFor("https://github.com/", p.githubUsername)),
      LinkCard("LeetCode", p.leetcodeUsername, UrlFor("https://leetcode.com/", p.leetcodeUsername)),
      LinkCard("LinkedIn", ConnectedIf(p.linkedinUrl), UrlFor("https://", p.linkedinUrl)),
      LinkCard("Portfolio", ConnectedIf(p.portfolioUrl), p.portfolioUrl) ]
  }

  /** Every connected card links to its profile; a card shows "Not connected"
      exactly when its field is missing or empty. */
  lemma ConnectedCardsLink(p: Profile)
    ensures forall k :: 0 <= k < 4 ==> (ProfileLinks(p)[k].Connected() <==> ProfileLinks(p)[k].HasAnchor())
  {
  }

  // ---------------------------------------------------------------- insights

  datatype InsightRow = Placeholder | Insight(text: string)

  /** `renderInsights`: one row per insight, or the single placeholder row. */
  function InsightRows(insights: seq<string>): (rows: seq<InsightRow>)
    ensures |insights| == 0 ==> rows == [Placeholder]
    ensures |insights| > 0 ==> |rows| == |insights| && Placeholder !in rows
    ensures forall k :: 0 <= k < |insights| ==> rows[k] == Insight(insights[k])
  {
    if |insights| == 0 then [Placeholder]
    else seq(|insights|, k requires 0 <= k < |insights| => Insight(insights[k]))
  }

  // ---------------------------------------------------------------- recommendations

  /** The badges of a recommendation card. */
  datatype Badges = Badges(priorityClass: string, priorityLabel: string, timeline: string)

  /** `rec.priority?.toLowerCase() || 'medium'`, `rec.priority || 'Medium'`
      and `rec.timeline || 'Ongoing'`. */
  function RecommendationBadges(priority: Option<string>, timeline: Option<string>): (b: Badges)
    ensures !Truthy(priority) ==> b.priorityLabel == "Medium"
    ensures Truthy(priority) ==> b.priorityLabel == priority.value
    ensures !Truthy(timeline) ==> b.timeline == "Ongoing"
    ensures Truthy(timeline) ==> b.timeline == timeline.value
  {
    Badges(
      if Truthy(priority) then LowerStr(priority.value) else "medium",
      if Truthy(priority) then priority.value else "Medium",
      if Truthy(timeline) then timeline.value else "Ongoing")
  }

  /** The badge's style class is always its label in lower case, defaults
      included. */
  lemma PriorityClassMatchesLabel(priority: Option<string>, timeline: Option<string>)
    ensures var b := RecommendationBadges(priority, timeline);
      b.priorityClass == LowerStr(b.priorityLabel)
  {
    var low := LowerStr("Medium");
    assert low[0] == 'm';
    assert low == "medium";
  }

  // ---------------------------------------------------------------- the problems chart

  /** `problems.easy || 0` and the like. */
  function CountOrZero(n: Option<int>): int {
    if n.Some? && n.value != 0 then n.value else 0
  }

  /** The page's doughnut chart, held in a global that each render replaces. */
  class ProblemsChart {
    /** The easy, medium and hard counts of the chart on the page, if any. */
    var data: Option<seq<int>>
    /** How many charts have been destroyed to make room for a new one. */
    var destroyed: nat

    constructor ()
      ensures data == None && destroyed == 0
    {
      data := None;
      destroyed := 0;
    }

    /** `renderProblemsChart`: without the canvas nothing happens; otherwise
        the old chart, if any, is destroyed and a new one holds the counts. */
    method Render(easy: Option<int>, medium: Option<int>, hard: Option<int>, canvasPresent: bool)
      modifies this
      ensures !canvasPresent ==> data == old(data) && destroyed == old(destroyed)
      ensures canvasPresent ==>
        && data == Some([CountOrZero(easy), CountOrZero(medium), CountOrZero(hard)])
        && destroyed == old(destroyed) + (if old(data).Some? then 1 else 0)
    {
      if !canvasPresent {
        return;
      }
      if data.Some? {
        destroyed := destroyed + 1;
      }
      data := Some([CountOrZero(easy), CountOrZero(medium), CountOrZero(hard)]);
    }
  }
}
