/** The pure pieces of the job seeker dashboard, `frontend/scripts/dashboard.js`:
    the progress bar of an application, the name and initials in the header,
    the colour of the ATS score, the checks on a resume upload, and the caps
    on the lists shown. */
module Dashboard {
  import opened Wrappers
  import opened Text
  import opened Sorting

  // ---------------------------------------------------------------- applications

  /** The statuses of an application, in the order an application moves. */
  const Pipeline: seq<string> := ["pending", "reviewing", "interview", "accepted"]

  /** `getApplicationProgress`: the percentage filled; `progress[status] || 0`. */
  function ApplicationProgress(status: string): (r: int)
    ensures r in {0, 25, 50, 75, 100}
    ensures r == 100 <==> status == "accepted" || status == "rejected"
    ensures r == 0 <==> status !in Pipeline && status != "rejected"
  {
    if status == "pending" then 25
    else if status == "reviewing" then 50
    else if status == "interview" then 75
    else if status == "accepted" || status == "rejected" then 100
    else 0
  }

  /** The bar grows as an application moves along the pipeline. */
  lemma ProgressFollowsPipeline(i: nat, j: nat)
    requires i < j < |Pipeline|
    ensures ApplicationProgress(Pipeline[i]) < ApplicationProgress(Pipeline[j])
  {
  }

  // ---------------------------------------------------------------- the header

  /** `user.full_name || user.email.split('@')[0]`. */
  function DisplayName(fullName: Option<string>, email: string): (r: string)
    ensures Truthy(fullName) ==> r == fullName.value
    ensures !Truthy(fullName) ==>
      && StartsWith(email, r) && '@' !in r
      && (|r| == |email| || email[|r|] == '@')
  {
    if Truthy(fullName) then fullName.value
    else
      SplitHead(email, '@');
      Split(email, '@')[0]
  }

  /** The first piece of a split is the text up to the first separator. */
  lemma {:induction false} SplitHead(s: string, sep: char)
    ensures var head := Split(s, sep)[0];
      StartsWith(s, head) && (|head| == |s| || s[|head|] == sep)
    decreases |s|
  {
    if |s| > 0 && s[0] != sep {
      SplitHead(s[1..], sep);
      var rest := Split(s[1..], sep);
      assert Split(s, sep)[0] == [s[0]] + rest[0];
      assert s == [s[0]] + s[1..];
    }
  }

  /** The first character of every non-empty word: `.map(n => n[0]).join('')`,
      where an empty word contributes `undefined`, which joins as nothing. */
  function FirstLetters(words: seq<string>): (r: string)
    ensures |r| <= |words|
    decreases |words|
  {
    if |words| == 0 then ""
    else (if |words[0]| > 0 then [words[0][0]] else "") + FirstLetters(words[1..])
  }

  /** The initials in the header: the first letters of the space-separated
      words of the name (or the e-mail), upper-cased, at most two. */
  function Initials(fullName: Option<string>, email: string): (r: string)
    ensures |r| <= 2
    ensures UpperStr(r) == r
  {
    var source := if Truthy(fullName) then fullName.value else email;
    var letters := UpperStr(FirstLetters(Split(source, ' ')));
    var r := if |letters| <= 2 then letters else letters[..2];
    assert forall k :: 0 <= k < |r| ==> r[k] == Upper(FirstLetters(Split(source, ' '))[k]);
    r
  }

  lemma {:induction false} SplitWithoutSep(s: string, sep: char)
    requires sep !in s
    ensures Split(s, sep) == [s]
    decreases |s|
  {
    if |s| > 0 {
      SplitWithoutSep(s[1..], sep);
      assert s == [s[0]] + s[1..];
    }
  }

  lemma {:induction false} SplitAtSep(a: string, sep: char, b: string)
    requires sep !in a
    ensures Split(a + [sep] + b, sep) == [a] + Split(b, sep)
    decreases |a|
  {
    var s := a + [sep] + b;
    if |a| > 0 {
      SplitAtSep(a[1..], sep, b);
      assert s[1..] == a[1..] + [sep] + b;
      assert [a[0]] + a[1..] == a;
    } else {
      assert s[1..] == b;
    }
  }

  /** A first and a last name give the upper-cased first letter of each. */
  lemma InitialsOfTwoWords(first: string, last: string, email: string)
    requires |first| > 0 && |last| > 0 && ' ' !in first && ' ' !in last
    ensures Initials(Some(first + " " + last), email) == [Upper(first[0]), Upper(last[0])]
  {
    SplitWithoutSep(last, ' ');
    SplitAtSep(first, ' ', last);
    var words := Split(first + " " + last, ' ');
    assert words == [first, last];
    assert words[1..] == [last];
    assert FirstLetters(words) == [first[0], last[0]];
  }

  // ---------------------------------------------------------------- the resume widget

  const Green := "#10b981"
  const Amber := "#f59e0b"
  const Red := "#ef4444"

  /** `resume.ats_score || 0`. */
  function AtsScore(atsScore: Option<int>): (r: int)
    ensures atsScore.None? ==> r == 0
    ensures atsScore.Some? ==> r == atsScore.value
  {
    if atsScore.Some? && atsScore.value != 0 then atsScore.value else 0
  }

  /** The colour of the ATS score: green from 80, amber from 60, red below. */
  function ScoreColor(atsScore: int): (r: string)
    ensures r == Green <==> atsScore >= 80
    ensures r == Amber <==> 60 <= atsScore < 80
    ensures r == Red <==> atsScore < 60
  {
    if atsScore >= 80 then Green else if atsScore >= 60 then Amber else Red
  }

  function ColorRank(color: string): nat {
    if color == Green then 2 else if color == Amber then 1 else 0
  }

  /** A higher score never gets a worse colour. */
  lemma ScoreColorMonotone(a: int, b: int)
    requires a <= b
    ensures ColorRank(ScoreColor(a)) <= ColorRank(ScoreColor(b))
  {
  }

  /** At most five skills are shown and a "+k" tag counts the rest. */
  const SkillsShown: int := 5

  function ShownSkills(skills: Option<seq<string>>): (r: seq<string>)
    ensures |r| <= SkillsShown && r <= skills.GetOr([])
    ensures |skills.GetOr([])| <= SkillsShown ==> r == skills.GetOr([])
  {
    JsSlice(skills.GetOr([]), 0, SkillsShown)
  }

  /** The "+k" tag: `(resume.skills?.length || 0) > 5`. */
  function OverflowTag(skills: Option<seq<string>>): (r: Option<string>)
    ensures r.Some? <==> skills.Some? && |skills.value| > SkillsShown
  {
    if skills.Some? && |skills.value| > SkillsShown then Some("+" + NatToString(|skills.value| - SkillsShown))
    else None
  }

  /** The tags shown and the number on the overflow tag account for every
      skill, and the shown ones are the first. */
  lemma SkillsAccounted(skills: seq<string>)
    ensures var shown := ShownSkills(Some(skills));
      && shown == skills[..Min(SkillsShown, |skills|)]
      && |shown| + (if OverflowTag(Some(skills)).Some?
                    then DigitsValue(OverflowTag(Some(skills)).value[1..]) else 0) == |skills|
  {
    if |skills| > SkillsShown {
      var digits := NatToString(|skills| - SkillsShown);
      assert OverflowTag(Some(skills)).value[1..] == digits;
      DigitsValueOfNatToString(|skills| - SkillsShown);
    }
  }

  // ---------------------------------------------------------------- the lists

  function Min(a: int, b: int): int { if a < b then a else b }

  /** `list.slice(0, n)`. */
  function Capped<T>(xs: seq<T>, n: nat): (r: seq<T>)
    ensures r == xs[..Min(n, |xs|)]
  {
    JsSlice(xs, 0, n)
  }

  const ApplicationsShown: nat := 5
  const SavedJobsShown: nat := 3

  /** The application and saved-job widgets show the first five and the first
      three entries. */
  lemma ListsCapped<T>(applications: seq<T>, savedJobs: seq<T>)
    ensures |Capped(applications, ApplicationsShown)| == Min(5, |applications|)
    ensures |Capped(savedJobs, SavedJobsShown)| == Min(3, |savedJobs|)
    ensures |applications| <= 5 ==> Capped(applications, ApplicationsShown) == applications
  {
  }

  // ---------------------------------------------------------------- uploads

  const ValidTypes: set<string> := {
    "application/pdf", "application/msword",
    "application/vnd.openxmlformats-officedocument.wordprocessingml.document" }
  const MaxUploadBytes: int := 10 * 1024 * 1024
  const WrongType := "Please upload a PDF or Word document"
  const TooLarge := "File size must be less than 10MB"

  /** The checks of `handleResumeFile` before the upload starts: the type
      first, then the size; exactly 10 MiB passes. */
  function ValidateUpload(mimeType: string, size: int): (r: Result<(), string>)
    ensures r.Success? <==> mimeType in ValidTypes && size <= MaxUploadBytes
    ensures r == Failure(WrongType) <==> mimeType !in ValidTypes
    ensures r == Failure(TooLarge) <==> mimeType in ValidTypes && size > MaxUploadBytes
  {
    if mimeType !in ValidTypes then Failure(WrongType)
    else if size > MaxUploadBytes then Failure(TooLarge)
    else Success(())
  }
}
