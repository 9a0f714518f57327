/** The spaCy-era parser (`backend/services/resume_parser.py`). Its text,
    contact, skill, education, experience and ATS extractors are the same as
    the simple parser's; it adds the GitHub, LeetCode and LinkedIn links to the
    parsed record. The spaCy model it loads is never used by the extractors. */
module ResumeParser {
  import opened Wrappers
  import opened ResumePatterns
  import opened ResumeParserSimple
  import opened ProfileLinks

  datatype FullResume = FullResume(parsed: ParsedResume, profileLinks: Links)

  /** `parse_resume`: the simple parser's record plus the profile links, rated
      on the same rubric. The links earn no ATS points. */
  method ParseResumeWithLinks(path: string, decode: Decoder, taxonomy: Taxonomy)
    returns (r: Result<(FullResume, real), ParseError>)
    ensures r.Failure? <==> ExtractText(path, decode).Failure?
    ensures r.Failure? ==> r.error == ExtractText(path, decode).error
    ensures r.Success? ==>
      var text := ExtractText(path, decode).value;
      && r.value.0.parsed == ParseText(text, taxonomy)
      && r.value.0.profileLinks.github == FirstGroup(text, GitHubPatterns)
      && r.value.0.profileLinks.leetcode == FirstGroup(text, LeetCodePatterns)
      && r.value.0.profileLinks.linkedin == (match FirstGroup(text, LinkedInPatterns)
           case Some(h) => Some("linkedin.com/in/" + h)
           case None => None)
      && r.value.0.profileLinks.portfolio.None?
      && r.value.1 == AtsPoints(r.value.0.parsed)
  {
    var extracted := ExtractText(path, decode);
    if extracted.Failure? {
      return Failure(extracted.error);
    }
    var rawText := extracted.value;
    var email := FindEmail(rawText);
    var phone := FindPhone(rawText);
    var skills := ExtractSkills(rawText, taxonomy);
    var education := ExtractEducation(rawText);
    var experience := ExtractExperience(rawText);
    var total := CalculateTotalExperience(experience);
    var links := ExtractSocialLinks(rawText);
    var parsed := ParsedResume(Contact(email, phone), skills, education, experience, total,
      if |rawText| <= 1000 then rawText else rawText[..1000]);
    var score := CalculateAtsScore(parsed);
    return Success((FullResume(parsed, links), score));
  }
}
