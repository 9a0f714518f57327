/** The deterministic parts of the mock-interview service
    (`backend/services/interview_ai.py`): the experience level derived from the
    active resume, the parser of the evaluator's text answer, and the
    performance level read off the final feedback. The language-model calls
    that produce the texts are left out; their answers are parameters. */
module InterviewAI {
  import opened Wrappers
  import opened Text
  import opened ResumePatterns

  // ---------------------------------------------------------------- experience level

  datatype Level = Beginner | Intermediate | Expert

  function LevelRank(l: Level): nat {
    match l
    case Beginner => 0
    case Intermediate => 1
    case Expert => 2
  }

  /** `resume.total_experience_months or 0`, then the 12- and 36-month thresholds. */
  function ExperienceLevel(months: Option<int>): (l: Level)
    ensures l == Beginner <==> months.GetOr(0) < 12
    ensures l == Expert <==> months.GetOr(0) >= 36
  {
    var m := months.GetOr(0);
    if m < 12 then Beginner else if m < 36 then Intermediate else Expert
  }

  /** More experience never gives a lower level; a missing count is a beginner's. */
  lemma ExperienceLevelMonotone(a: int, b: int)
    requires a <= b
    ensures LevelRank(ExperienceLevel(Some(a))) <= LevelRank(ExperienceLevel(Some(b)))
    ensures ExperienceLevel(None) == ExperienceLevel(Some(0)) == Beginner
  {
  }

  /** The active resume's skill names and experience months, as stored. */
  datatype ActiveResume = ActiveResume(skillNames: seq<string>, totalMonths: Option<int>)

  /** `get_user_profile`: `(None, None)` without an active resume. */
  function GetUserProfile(resume: Option<ActiveResume>): (r: (Option<seq<string>>, Option<Level>))
    ensures r.0.None? <==> resume.None?
    ensures r.1.None? <==> resume.None?
    ensures resume.Some? ==> r.0.value == resume.value.skillNames && r.1.value == ExperienceLevel(resume.value.totalMonths)
  {
    match resume
    case None => (None, None)
    case Some(res) => (Some(res.skillNames), Some(ExperienceLevel(res.totalMonths)))
  }

  // ---------------------------------------------------------------- scores

  function Pow10(n: nat): (r: nat)
    ensures r >= 1
  {
    if n == 0 then 1 else 10 * Pow10(n - 1)
  }

  lemma AllDigitsSlice(s: string, i: nat, j: nat)
    requires i <= j <= |s| && forall k :: i <= k < j ==> IsDigit(s[k])
    ensures AllDigits(s[i..j])
  {
    assert forall k :: 0 <= k < j - i ==> s[i..j][k] == s[i + k];
  }

  /** `float()` of `<int>.<frac>`, exactly. */
  function Decimal(whole: string, frac: string): real
    requires AllDigits(whole) && AllDigits(frac)
  {
    DigitsValue(whole) as real + DigitsValue(frac) as real / Pow10(|frac|) as real
  }

  /** `<tag>\s*(\d+(?:\.\d+)?)` at `i`: the end of the match and the number.
      `\d+` takes the whole digit run; the fraction is taken only when a '.'
      and at least one digit follow. */
  function TagNumberAt(tag: string, s: string, i: nat): Option<(nat, real)> {
    if ContainsAt(s, tag, i) then
      var a := i + |tag| + RunLength(s, i + |tag|, IsSpace);
      var d := RunLength(s, a, IsDigit);
      if d >= 1 then
        AllDigitsSlice(s, a, a + d);
        var f := if a + d < |s| && s[a + d] == '.' then RunLength(s, a + d + 1, IsDigit) else 0;
        if f >= 1 then
          AllDigitsSlice(s, a + d + 1, a + d + 1 + f);
          Some((a + d + 1 + f, Decimal(s[a..a + d], s[a + d + 1..a + d + 1 + f])))
        else Some((a + d, DigitsValue(s[a..a + d]) as real))
      else None
    else None
  }

  function TagMatcher(tag: string): (string, nat) -> Option<(nat, real)> {
    (s: string, i: nat) => TagNumberAt(tag, s, i)
  }

  /** The number after the leftmost occurrence of `tag` that is followed by
      one, or 5.0 when there is none. */
  function TagValue(text: string, tag: string): real {
    match Search(text, 0, TagMatcher(tag))
    case Some((_, _, v)) => v
    case None => 5.0
  }

  /** The value is read at the leftmost position where the tag is followed by
      a number; without such a position (in particular without the tag) it is 5.0. */
  lemma TagValueLeftmost(text: string, tag: string, q: nat)
    requires q <= |text| && TagNumberAt(tag, text, q).Some?
    requires forall p :: 0 <= p < q ==> TagNumberAt(tag, text, p).None?
    ensures TagValue(text, tag) == TagNumberAt(tag, text, q).value.1
  {
    var r := Search(text, 0, TagMatcher(tag));
    assert TagMatcher(tag)(text, q) == TagNumberAt(tag, text, q);
    assert r.Some?;
    assert TagMatcher(tag)(text, r.value.0) == TagNumberAt(tag, text, r.value.0);
    assert r.value.0 == q;
  }

  lemma TagValueAbsent(text: string, tag: string)
    requires !Contains(text, tag)
    ensures TagValue(text, tag) == 5.0
  {
    var r := Search(text, 0, TagMatcher(tag));
    if r.Some? {
      assert false;
    }
  }

  lemma {:induction false} RunLengthToEnd(s: string, i: nat, cls: char -> bool)
    requires i <= |s| && forall k :: i <= k < |s| ==> cls(s[k])
    ensures RunLength(s, i, cls) == |s| - i
    decreases |s| - i
  {
    if i < |s| {
      RunLengthToEnd(s, i + 1, cls);
    }
  }

  lemma TagThenDigits(tag: string, digits: string, s: string)
    requires |digits| >= 1 && AllDigits(digits) && s == tag + " " + digits
    ensures ContainsAt(s, tag, 0)
    ensures RunLength(s, |tag|, IsSpace) == 1
    ensures RunLength(s, |tag| + 1, IsDigit) == |digits|
  {
    TagFirst(tag, digits);
    SpaceAfterTag(tag, digits);
    DigitsAfterSpace(tag, digits);
    DigitsToEnd(s, |tag| + 1, digits);
  }

  lemma TagFirst(tag: string, digits: string)
    ensures ContainsAt(tag + " " + digits, tag, 0)
  {
    var s := tag + " " + digits;
    assert s[..|tag|] == tag;
  }

  lemma SpaceAfterTag(tag: string, digits: string)
    requires |digits| >= 1 && AllDigits(digits)
    ensures RunLength(tag + " " + digits, |tag|, IsSpace) == 1
  {
    var s := tag + " " + digits;
    assert s[|tag|] == ' ' && s[|tag| + 1] == digits[0];
    SpaceThenDigit(s, |tag|);
  }

  lemma DigitsAfterSpace(tag: string, digits: string)
    ensures (tag + " " + digits)[|tag| + 1..] == digits
  {
  }

  lemma SpaceThenDigit(s: string, i: nat)
    requires i + 1 < |s| && s[i] == ' ' && IsDigit(s[i + 1])
    ensures RunLength(s, i, IsSpace) == 1
  {
    assert RunLength(s, i + 1, IsSpace) == 0;
  }

  lemma DigitsToEnd(s: string, a: nat, digits: string)
    requires AllDigits(digits) && a + |digits| == |s| && s[a..] == digits
    ensures RunLength(s, a, IsDigit) == |digits|
    ensures s[a..a + |digits|] == digits
  {
    assert forall k :: a <= k < |s| ==> s[k] == s[a..][k - a];
    RunLengthToEnd(s, a, IsDigit);
  }

  /** A number whose digits run to the end of the text has no fraction. */
  lemma TagNumberAtEnd(tag: string, s: string, i: nat, a: nat)
    requires ContainsAt(s, tag, i) && a == i + |tag| + RunLength(s, i + |tag|, IsSpace)
    requires a < |s| && RunLength(s, a, IsDigit) == |s| - a
    ensures AllDigits(s[a..]) && TagNumberAt(tag, s, i) == Some((|s|, DigitsValue(s[a..]) as real))
  {
    AllDigitsSlice(s, a, |s|);
    assert s[a..|s|] == s[a..];
  }

  /** A score written as `<tag> <n>` is read back as n. */
  lemma TagValueRoundTrip(tag: string, n: nat)
    ensures TagValue(tag + " " + NatToString(n), tag) == n as real
  {
    var digits := NatToString(n);
    var s := tag + " " + digits;
    assert s[|tag| + 1..] == digits;
    TagThenDigits(tag, digits, s);
    TagNumberAtEnd(tag, s, 0, |tag| + 1);
    DigitsValueOfNatToString(n);
    TagValueLeftmost(s, tag, 0);
  }

  // ---------------------------------------------------------------- sections

  /** Where a lazy `(.*?)` followed by the lookahead `(?=<stop>|$)` ends. */
  predicate StopAt(s: string, stop: Option<string>, j: nat) {
    (stop.Some? && ContainsAt(s, stop.value, j)) || EndAnchor(s, j)
  }

  /** The first position from `from` on where the lookahead holds. */
  function SectionEnd(s: string, from: nat, stop: Option<string>): (j: nat)
    requires from <= |s|
    ensures from <= j <= |s| && StopAt(s, stop, j)
    ensures forall q :: from <= q < j ==> !StopAt(s, stop, q)
    decreases |s| - from
  {
    if StopAt(s, stop, from) then from else SectionEnd(s, from + 1, stop)
  }

  /** `<head>(.*?)(?=<stop>|$)` with DOTALL at `i`, capturing the section. */
  function SectionAt(head: string, stop: Option<string>, s: string, i: nat): Option<(nat, string)> {
    if ContainsAt(s, head, i) then
      var j := SectionEnd(s, i + |head|, stop);
      Some((j, s[i + |head|..j]))
    else None
  }

  function SectionMatcher(head: string, stop: Option<string>): (string, nat) -> Option<(nat, string)> {
    (s: string, i: nat) => SectionAt(head, stop, s, i)
  }

  /** The section after the leftmost `head`, if any. */
  function Section(text: string, head: string, stop: Option<string>): Option<string> {
    match Search(text, 0, SectionMatcher(head, stop))
    case Some((_, _, sec)) => Some(sec)
    case None => None
  }

  /** A found section never runs into its stop marker. */
  lemma SectionStopsAtMarker(text: string, head: string, stop: string)
    requires |stop| > 0 && Section(text, head, Some(stop)).Some?
    ensures !Contains(Section(text, head, Some(stop)).value, stop)
  {
    var r := Search(text, 0, SectionMatcher(head, Some(stop)));
    var i := r.value.0;
    var start := i + |head|;
    var j := SectionEnd(text, start, Some(stop));
    var sec := text[start..j];
    assert SectionMatcher(head, Some(stop))(text, i) == SectionAt(head, Some(stop), text, i);
    assert sec == Section(text, head, Some(stop)).value;
    forall p: nat | p + |stop| <= |sec|
      ensures !ContainsAt(sec, stop, p)
    {
      assert !StopAt(text, Some(stop), start + p);
      SliceOfSlice(text, start, j, p, p + |stop|);
    }
  }

  predicate IsBulletChar(c: char) { c == '-' || c == ' ' }

  /** `[s.strip('- ').strip() for s in lines if s.strip().startswith('-')]`. */
  function Bullets(lines: seq<string>): (r: seq<string>)
    ensures |r| <= |lines|
    decreases |lines|
  {
    if |lines| == 0 then []
    else
      var line := lines[|lines| - 1];
      Bullets(lines[..|lines| - 1]) + (if StartsWith(Strip(line), "-") then [Strip(StripBy(line, IsBulletChar))] else [])
  }

  /** Lines that are not bullets contribute nothing. */
  lemma {:induction false} BulletsOfPlainLines(lines: seq<string>)
    requires forall k :: 0 <= k < |lines| ==> !StartsWith(Strip(lines[k]), "-")
    ensures Bullets(lines) == []
    decreases |lines|
  {
    if |lines| > 0 {
      var init := lines[..|lines| - 1];
      assert forall k :: 0 <= k < |init| ==> init[k] == lines[k];
      BulletsOfPlainLines(init);
    }
  }

  /** A section's bullets joined by newlines, or the default when the section
      is missing or has no bullet. */
  function BulletText(section: Option<string>, default: string): string {
    match section
    case None => default
    case Some(sec) =>
      var items := Bullets(Split(sec, '\n'));
      if |items| > 0 then Join(items, "\n") else default
  }

  datatype Evaluation = Evaluation(
    score: real, technicalCorrectness: real, clarityScore: real, relevanceScore: real,
    strengths: string, improvements: string, modelAnswer: string, feedback: string)

  /** `_parse_evaluation`. */
  function ParseEvaluation(text: string): (e: Evaluation)
    ensures e.feedback == text
  {
    Evaluation(
      TagValue(text, "SCORE:"), TagValue(text, "TECHNICAL:"), TagValue(text, "CLARITY:"), TagValue(text, "RELEVANCE:"),
      BulletText(Section(text, "STRENGTHS:", Some("IMPROVEMENTS:")), "Good effort"),
      BulletText(Section(text, "IMPROVEMENTS:", Some("MODEL_ANSWER:")), "Keep practicing"),
      match Section(text, "MODEL_ANSWER:", None)
      case Some(answer) => Strip(answer)
      case None => "",
      text)
  }

  lemma SectionAbsent(text: string, head: string, stop: Option<string>)
    requires !Contains(text, head)
    ensures Section(text, head, stop).None?
  {
    var r := Search(text, 0, SectionMatcher(head, stop));
    if r.Some? {
      assert false;
    }
  }

  /** Text without any of the expected markers parses to the defaults, and
      the whole text is always kept as the feedback. */
  lemma ParseEvaluationDefaults(text: string)
    requires !Contains(text, "SCORE:") && !Contains(text, "TECHNICAL:")
    requires !Contains(text, "CLARITY:") && !Contains(text, "RELEVANCE:")
    requires !Contains(text, "STRENGTHS:") && !Contains(text, "IMPROVEMENTS:") && !Contains(text, "MODEL_ANSWER:")
    ensures ParseEvaluation(text) == Evaluation(5.0, 5.0, 5.0, 5.0, "Good effort", "Keep practicing", "", text)
  {
    TagValueAbsent(text, "SCORE:");
    TagValueAbsent(text, "TECHNICAL:");
    TagValueAbsent(text, "CLARITY:");
    TagValueAbsent(text, "RELEVANCE:");
    SectionAbsent(text, "STRENGTHS:", Some("IMPROVEMENTS:"));
    SectionAbsent(text, "IMPROVEMENTS:", Some("MODEL_ANSWER:"));
    SectionAbsent(text, "MODEL_ANSWER:", None);
  }

  /** A section whose lines hold no bullet falls back to the default. */
  lemma NoBulletsGivesDefault(sec: string, default: string)
    requires forall k :: 0 <= k < |Split(sec, '\n')| ==> !StartsWith(Strip(Split(sec, '\n')[k]), "-")
    ensures BulletText(Some(sec), default) == default
  {
    BulletsOfPlainLines(Split(sec, '\n'));
  }

  // ---------------------------------------------------------------- performance level

  /** The level named in the final feedback; "Job-Ready" takes precedence. */
  function PerformanceLevel(feedback: string): (r: string)
    ensures r == "Job-Ready" <==> Contains(feedback, "Job-Ready")
    ensures r == "Intermediate" <==> !Contains(feedback, "Job-Ready") && Contains(feedback, "Intermediate")
    ensures r == "Beginner" <==> !Contains(feedback, "Job-Ready") && !Contains(feedback, "Intermediate")
  {
    if Contains(feedback, "Job-Ready") then "Job-Ready"
    else if Contains(feedback, "Intermediate") then "Intermediate"
    else "Beginner"
  }
}
