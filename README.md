# Skillora matching core in Dafny

Skillora matches job seekers with job postings. This project models the parts
of it that compute something, and proves what they promise:

- **Recommendations** (`RecommendationEngine`): experience, freshness and
  location sub-scores; a fixed-weight blend; a 0.6 threshold; a stable
  descending sort; a cut to `limit`.
- **Rule-based resume parsing** (`ResumePatterns`, `ResumeParserSimple`,
  `ResumeParser`, `ProfileLinks`). The regular expressions become explicit
  matchers that scan as Python's `re` does. On top of them sit:
  - the whole-word taxonomy skill matcher;
  - the degree and date-range scanners with their context windows;
  - the experience-month sum;
  - the 0–10 ATS rubric;
  - first-pattern-wins profile-link extraction.
- **Profile analysis** (`ProfileAnalyzer`): the GitHub and LeetCode tier
  points, the insight, strength and improvement lists, and the 60/40 overall
  blend.
- **Profile scraping** (`ProfileScraper`): the 24-hour cache as a class over
  a map, and the pure aggregation of already-fetched API answers (language
  tallies, top repositories, solved-problem counts).
- **Mock interviews** (`InterviewAI`, `InterviewSessions`):
  - the experience level;
  - the parser of the evaluator's text;
  - the performance level;
  - the session as a class whose start, submit and complete operations follow
    the routes.
- **Validators and upload helpers** (`Validators`, `FileHandler`).
- **Front-end pure logic**:
  - the job page's filters, sorts, page slice and page-button window, with the
    page state as a class (`JobsPage`);
  - the format helpers (`FormatUtils`);
  - the dashboard's maps and caps (`Dashboard`);
  - the profile analysis view (`ProfileAnalysisView`).

Shared modules:

- Wrappers: Option and Result.
- Text: character classes, ASCII case mapping, split/join/strip, decimal
  digits, and the leftmost-match and find-all scans.
- Sorting: a stable descending insertion sort, and Python's and
  JavaScript's slices.

Numbers are exact reals, so there is no float rounding. Code that changes
state in the source is modelled as classes or loops with invariants:

- the scraper cache, the interview session, the job page state, the chart
  and the upload folder;
- the tallying, filtering, scoring and extraction loops.

Everything else is modelled as functions, with lemmas relating them.

Three behaviours of the code are easy to misread, and the model keeps them:

- The total experience is not always non-negative. A reversed range such as
  "2023 - 2020" contributes −36 months (`ResumeParserSimple.ReversedRangeIsNegative`).
- "Present" or "Current" is never replaced by the current year. Only
  four-digit runs are read, so such a range has one run and adds 0.
- A phone number does not always earn its ATS point. `extract_phone`
  returns the optional prefix group rather than the number. For a number
  written without a country code, such as "555-123-4567", the group is the
  empty string (`ResumePatterns.PlainPhoneCapturesNothing`,
  `ResumeParserSimple.PlainPhoneEarnsNoPoint`).

## Model

| member | source | states |
|---|---|---|
| RecommendationEngine.SkillMatch | backend/services/recommendation_engine.py:47-68 | 0 when either skill list is empty; otherwise the similarity of the two lists |
| RecommendationEngine.ExperienceMatch | backend/services/recommendation_engine.py:70-101 | full marks exactly when the user's years lie within the given bounds; never above 1; an over-qualified user with both bounds given gets at least 0.7; never negative for non-negative inputs |
| RecommendationEngine.Ratio | backend/services/recommendation_engine.py:80-101 | the shortfall and over-qualification ratios stay below 1 |
| RecommendationEngine.Freshness | backend/services/recommendation_engine.py:103-121 | the freshness score lies in [0.1, 1] |
| RecommendationEngine.FreshnessAnchors | backend/services/recommendation_engine.py:108-121 | 0.5 without a date, 1 at 7 days, 0.5 at 30 days, 0.1 at 90 days |
| RecommendationEngine.FreshnessNonIncreasing | backend/services/recommendation_engine.py:113-121 | an older posting never scores higher |
| RecommendationEngine.FreshnessFloor | backend/services/recommendation_engine.py:121 | from 90 days on, every posting scores the floor 0.1 |
| RecommendationEngine.LocationMatch | backend/services/recommendation_engine.py:123-143 | 1 for a job without a location; 0.5 for a located job and a user without one; otherwise, on the lower-cased names, 1 exactly when they are equal, 0.8 exactly when they differ and one contains the other, 0.3 exactly when neither contains the other |
| RecommendationEngine.LocationSymmetric | backend/services/recommendation_engine.py:135-143 | with both locations given the score does not depend on which is the user's |
| RecommendationEngine.LocationIgnoresCase | backend/services/recommendation_engine.py:135-136 | lower-casing either location changes nothing |
| RecommendationEngine.LocationFullMeansSame | backend/services/recommendation_engine.py:128-139 | for a located job and a located user, full marks exactly when the names agree up to case |
| RecommendationEngine.WeightedScore | backend/services/recommendation_engine.py:145-157 | the blend of sub-scores in [0, 1] lies in [0, 1] |
| RecommendationEngine.WeightedScoreMonotone | backend/services/recommendation_engine.py:150-155 | raising any sub-score never lowers the blend |
| RecommendationEngine.WeightedScoreFull | backend/services/recommendation_engine.py:150-155 | the blend is 1 exactly when all four sub-scores are 1 |
| RecommendationEngine.ThresholdNeedsSkills | backend/services/recommendation_engine.py:16-20 | reaching the 0.6 threshold needs a skill similarity of at least 0.2, so a job listing no skills is never recommended |
| RecommendationEngine.ScoreJob | backend/services/recommendation_engine.py:210-218 | a job's final score is at most half its skill similarity plus 0.5; reaching the threshold needs a skill similarity of at least 0.2; a user or a job without skills never reaches it |
| RecommendationEngine.Explain | backend/services/recommendation_engine.py:159-190 | each part shows its score in percent, its own weight (50, 25, 15, 10) and its contribution score × weight / 100; the weights add up to 100 and the contributions to the blended score in percent |
| RecommendationEngine.ActiveJobs | backend/services/recommendation_engine.py:206 | exactly the catalog jobs whose status is 'active' |
| RecommendationEngine.CandidatesExact | backend/services/recommendation_engine.py:210-230 | each collected recommendation is a scanned job with its blended score and explanation and a score at the threshold or above; every job reaching the threshold is collected |
| RecommendationEngine.RecommendJobs | backend/services/recommendation_engine.py:192-236 | none for a user without skills; otherwise the loop keeps each active job scoring at or above the threshold with its score and explanation, in catalog order, then the stable sort by score and the cut to `limit` |
| RecommendationEngine.RecommendSound | backend/services/recommendation_engine.py:202-236 | every recommendation is an active catalog job with its blended score at or above the threshold; highest score first; at most `limit` of them |
| RecommendationEngine.RecommendComplete | backend/services/recommendation_engine.py:206-236 | with a limit that cuts nothing, every active job reaching the threshold is recommended |
| RecommendationEngine.RankedTiesKeepCatalogOrder | backend/services/recommendation_engine.py:233 | the sort is stable: recommendations with equal scores keep their catalog order |
| ResumePatterns.FindWholeWord | backend/services/resume_parser_simple.py:82-83 | `re.search(r'\b' + skill + r'\b', text)` succeeds exactly when the skill occurs at a position with a word boundary on both sides |
| ResumePatterns.WholeWordExample | backend/services/resume_parser_simple.py:82-83 | "java" is not found in "javascript" but is found in "java, javascript" |
| ResumePatterns.EmailAt | backend/services/resume_parser_simple.py:62 | an e-mail match is non-empty and lies inside the text |
| ResumePatterns.FindEmail | backend/services/resume_parser_simple.py:60-64 | the address returned is the leftmost match of the e-mail pattern, which `findall(...)[0]` reports, with no match starting earlier; None exactly when the pattern matches nowhere |
| ResumePatterns.PhoneAt | backend/services/resume_parser_simple.py:68 | a phone match is non-empty and lies inside the text |
| ResumePatterns.FindPhone | backend/services/resume_parser_simple.py:66-70 | what is returned is group 1's capture at the leftmost match of the phone pattern, not the number; None exactly when the pattern matches nowhere |
| ResumePatterns.PlainPhoneExample | backend/services/resume_parser_simple.py:68-70 | for "555-123-4567" the extractor returns the empty string |
| ResumePatterns.PlainPhoneCapturesNothing | backend/services/resume_parser_simple.py:68-70 | for any text starting with a number written as three, three and four digits (one separator or none in each gap) and no digit after it, the extractor returns the empty string |
| ResumePatterns.PrefixedPhoneExample | backend/services/resume_parser_simple.py:68-70 | for "+1 555-123-4567" the extractor returns "+1 " |
| ResumePatterns.AltsAt | backend/services/resume_parser_simple.py:100-105 | a degree alternative that matches consumes at least one character, inside the text |
| ResumePatterns.DegreeMatchAdvances | backend/services/resume_parser_simple.py:108-110 | every degree match is non-empty, so `re.finditer` moves forward over the text |
| ResumePatterns.FindYear | backend/services/resume_parser_simple.py:117-118 | the year found is the leftmost four digits starting "19" or "20", as `re.search` finds it; None exactly when no position starts such a year |
| ResumePatterns.FourDigitRuns | backend/services/resume_parser_simple.py:160 | `re.findall(r'\d{4}', ...)` returns only four-digit strings |
| ResumePatterns.DateRangeAt | backend/services/resume_parser_simple.py:137 | a date-range match is non-empty and lies inside the line |
| ResumePatterns.FindDateRange | backend/services/resume_parser_simple.py:137-138 | the range found is the text of the leftmost match of the date-range pattern in the line, as `re.search` finds it; None exactly when the pattern matches nowhere in it |
| ResumeParserSimple.DocumentKindOf | backend/services/resume_parser_simple.py:49-58 | PDF exactly for the lower-cased extension "pdf", DOCX exactly for "docx"; a path without '.' fails (the IndexError of `rsplit`); any other extension is the unsupported-format error carrying it |
| ResumeParserSimple.ExtractText | backend/services/resume_parser_simple.py:49-58 | a dispatch failure is passed through; for a dispatched kind the result is a success exactly when its decoder succeeds, holding the decoded text, and a decoder failure becomes a decode error with the decoder's message |
| ResumeParserSimple.CategoryMap | backend/services/resume_parser_simple.py:85 | the categorised dict has exactly the hit skills as keys |
| ResumeParserSimple.CategoryMapLastWins | backend/services/resume_parser_simple.py:85 | each skill maps to the category of its last hit |
| ResumeParserSimple.ExtractSkills | backend/services/resume_parser_simple.py:72-93 | the nested category-then-skill loop builds exactly the hits in iteration order, their de-duplicated list and the category map of the last hit |
| ResumeParserSimple.HitsExact | backend/services/resume_parser_simple.py:78-85 | a (skill, category) hit is exactly a skill listed under that category whose lower-cased form occurs as a whole word |
| ResumeParserSimple.SkillsFoundExact | backend/services/resume_parser_simple.py:78-88 | a skill is in `all_skills` exactly when some category lists it and it occurs as a whole word in the lower-cased text |
| ResumeParserSimple.SkillsFirstSeenOrder | backend/services/resume_parser_simple.py:87-88 | `all_skills` has no duplicates and lists skills in first-match order over the iteration |
| ResumeParserSimple.SkillsCategorized | backend/services/resume_parser_simple.py:84-88 | exactly the found skills are categorised, each under a category that lists it, namely that of its last hit |
| ResumeParserSimple.Window | backend/services/resume_parser_simple.py:112-114 | the context window is at most 200 characters longer than the match |
| ResumeParserSimple.EducationEntryFields | backend/services/resume_parser_simple.py:111-124 | an entry holds the matched text, the leftmost 19xx/20xx year of the window or None when the window has none, and the stripped window as its context |
| ResumeParserSimple.DegreeMatches | backend/services/resume_parser_simple.py:109 | each reported match is a non-empty stretch inside the text |
| ResumeParserSimple.DegreeMatchesFound | backend/services/resume_parser_simple.py:109-110 | each reported match is a match of the pattern, and the matches come in text order without overlapping |
| ResumeParserSimple.EntryOrigin | backend/services/resume_parser_simple.py:100-126 | every education entry is the entry for some match of some degree pattern |
| ResumeParserSimple.EducationComplete | backend/services/resume_parser_simple.py:100-126 | every match of every pattern has its entry, after the entries of earlier patterns and earlier matches: no de-duplication |
| ResumeParserSimple.ExtractEducation | backend/services/resume_parser_simple.py:95-126 | the pattern loop builds exactly the blocks of entries, pattern by pattern |
| ResumeParserSimple.AppendPatternEntries | backend/services/resume_parser_simple.py:110-124 | the inner loop appends the entries of one pattern's matches in match order |
| ResumeParserSimple.ExperienceUpTo | backend/services/resume_parser_simple.py:135-149 | at most one entry per line |
| ResumeParserSimple.ExperienceSound | backend/services/resume_parser_simple.py:135-149 | every entry comes from a line whose first date range it holds, with the context of lines i−2 to i+4 joined and stripped |
| ResumeParserSimple.ExperienceComplete | backend/services/resume_parser_simple.py:135-149 | every line holding a date range contributes its entry |
| ResumeParserSimple.ExtractExperience | backend/services/resume_parser_simple.py:128-151 | the line loop builds exactly the entries line by line |
| ResumeParserSimple.CalculateTotalExperience | backend/services/resume_parser_simple.py:153-169 | the loop's total equals the sum over entries of (second − first four-digit run) × 12, entries with fewer than two runs adding 0 |
| ResumeParserSimple.TotalMonthsAppend | backend/services/resume_parser_simple.py:157-165 | the total is additive over the entry list |
| ResumeParserSimple.TotalMonthsNonNegative | backend/services/resume_parser_simple.py:157-165 | the total is non-negative when no entry's range runs backwards |
| ResumeParserSimple.ReversedRangeIsNegative | backend/services/resume_parser_simple.py:160-165 | a single range "2023 - 2020" makes the total −36 months: there is no clamping |
| ResumeParserSimple.AtsPoints | backend/services/resume_parser_simple.py:176-197 | the rubric's points lie in [0, 10] |
| ResumeParserSimple.CalculateAtsScore | backend/services/resume_parser_simple.py:171-199 | the accumulated, capped score equals the rubric's points and lies in [0, 10] |
| ResumeParserSimple.AtsMonotone | backend/services/resume_parser_simple.py:176-197 | more signals (contact fields, skills, education, experience) never lower the score |
| ResumeParserSimple.PlainPhoneEarnsNoPoint | backend/services/resume_parser_simple.py:179-180 | a resume whose text starts with such a number stores the empty phone and gets no phone point, so it scores at most 9 |
| ResumeParserSimple.ParseText | backend/services/resume_parser_simple.py:218-228 | `raw_text` is a prefix of the text of at most 1000 characters, the whole text when it is short enough |
| ResumeParserSimple.ParseResume | backend/services/resume_parser_simple.py:201-233 | an unreadable path gives its error; otherwise the record of every extractor on the text, rated with the rubric |
| ProfileLinks.FirstGroupFirstWins | backend/services/resume_parser.py:223-253 | the link found comes from a pattern that matches, with every earlier pattern in the list failing; there is no link exactly when every pattern fails |
| ProfileLinks.FirstMatch | backend/services/resume_parser.py:227-231 | the `for pattern ... if match: ...; break` loop returns the group of the first matching pattern in list order, later patterns untried |
| ProfileLinks.ExtractSocialLinks | backend/services/resume_parser.py:213-255 | GitHub and LeetCode are the first-pattern groups; LinkedIn is written "linkedin.com/in/<id>" whichever of its patterns matched; the portfolio stays None |
| ProfileLinks.DomainAt | backend/services/profile_scraper.py:254-255 | a captured domain is a non-empty stretch of the text after its start |
| ProfileLinks.UrlAt | backend/services/profile_scraper.py:254-255 | a URL match ends after its start and inside the text |
| ProfileLinks.FirstPortfolio | backend/services/profile_scraper.py:257-261 | the portfolio is the first URL containing none of the five excluded domains, and None exactly when every URL contains one |
| ProfileLinks.ExtractLinksWithPortfolio | backend/services/profile_scraper.py:208-263 | the scraper's links: the same first-pattern-wins social links, plus as the portfolio the first captured URL domain that contains no excluded domain, every earlier one containing one; None exactly when all are excluded |
| ResumeParser.ParseResumeWithLinks | backend/services/resume_parser.py:257-291 | a path that cannot be read gives that error; otherwise the simple parser's record, the profile links of the raw text (portfolio None), and the ATS score of the assembled record |
| ProfileAnalyzer.OrDefault | backend/services/profile_analyzer.py:118 | `xs or [fallback]` is never empty: the list itself when it has entries, otherwise exactly the fallback |
| ProfileAnalyzer.GitHubPoints | backend/services/profile_analyzer.py:29-96 | the sum of the five tier points and the flat 10 lies in [20, 100] |
| ProfileAnalyzer.GitHubPointsMonotone | backend/services/profile_analyzer.py:30-92 | raising repositories, stars, followers, language count or forks never lowers the GitHub points |
| ProfileAnalyzer.GitHubInsights | backend/services/profile_analyzer.py:29-92 | the insights hold between 2 and 5 entries, the repository tier's first and the stars tier's second |
| ProfileAnalyzer.GitHubStrengths | backend/services/profile_analyzer.py:105-118 | the appended strengths are those whose thresholds the statistics meet, in source order, or the single default; never empty |
| ProfileAnalyzer.GitHubImprovements | backend/services/profile_analyzer.py:120-135 | the appended improvements are those whose thresholds the statistics miss, in source order, or the single default; never empty |
| ProfileAnalyzer.StrongProfileNeedsNothing | backend/services/profile_analyzer.py:124-135 | a profile past all five improvement thresholds gets only "Keep up the great work!" |
| ProfileAnalyzer.RepoTier | backend/services/profile_analyzer.py:30-42 | the repository block adds 20/15/10/5 points at 20/10/5 repositories and appends that tier's insight |
| ProfileAnalyzer.StarTier | backend/services/profile_analyzer.py:45-57 | the stars block adds 25/20/15/5 points at 100/50/20 stars and appends that tier's insight |
| ProfileAnalyzer.FollowerTier | backend/services/profile_analyzer.py:60-69 | the followers block adds 15/10/5/0 points; only the top and bottom tiers append an insight |
| ProfileAnalyzer.LanguageTier | backend/services/profile_analyzer.py:72-82 | the language block adds 20/15/10/0 points by language count; the two-language tier appends nothing |
| ProfileAnalyzer.ForkTier | backend/services/profile_analyzer.py:85-92 | the forks block adds 10/7/5/0 points; only 20 forks or more append an insight |
| ProfileAnalyzer.GitHubTiers | backend/services/profile_analyzer.py:26-96 | the accumulated score equals the tier points plus the flat 10 and lies in [20, 100]; the insights are the tiers' insights in block order |
| ProfileAnalyzer.AnalyzeGitHub | backend/services/profile_analyzer.py:18-103 | an error input gives score 0 and the error; otherwise the result holds the capped points, the insights and both never-empty advice lists, with the score in [20, 100] |
| ProfileAnalyzer.LeetCodePoints | backend/services/profile_analyzer.py:153-206 | the sum of the total, hard-ratio, medium and ranking points lies in [10, 100] |
| ProfileAnalyzer.HardPointsByCount | backend/services/profile_analyzer.py:176-187 | with no problems the hard-ratio tier gives nothing; otherwise 30 points exactly when at least a fifth are hard, 20 or more exactly when at least a tenth are |
| ProfileAnalyzer.LeetCodeInsights | backend/services/profile_analyzer.py:158-206 | one to four insights, the total-problems tier's first |
| ProfileAnalyzer.NoRankingNoCredit | backend/services/profile_analyzer.py:199-206 | a ranking of None or 0 earns no ranking points, no ranking insight and no ranking strength |
| ProfileAnalyzer.LeetCodeStrengths | backend/services/profile_analyzer.py:215-227 | the strengths met, in source order, or "Active LeetCode practice"; never empty |
| ProfileAnalyzer.LeetCodeImprovements | backend/services/profile_analyzer.py:229-243 | the improvements missed, the hard-ratio one only when total > 0, or "Maintain consistent practice"; never empty |
| ProfileAnalyzer.LeetCodeTiers | backend/services/profile_analyzer.py:149-206 | the accumulated score equals the tier points and lies in [10, 100]; the insights are the tiers' insights in block order |
| ProfileAnalyzer.AnalyzeLeetCode | backend/services/profile_analyzer.py:141-213 | an error input gives score 0 and the error; otherwise the capped points, the insights and both never-empty advice lists, with the score in [10, 100] |
| ProfileAnalyzer.OverallScore | backend/services/profile_analyzer.py:249-258 | with both scores in [0, 100] (a missing score read as 0) the rounded 60/40 blend lies in [0, 100] |
| ProfileAnalyzer.BlendNeverHalf | backend/services/profile_analyzer.py:257-258 | a 60/40 blend of integers is never half-way between two integers, so rounding halves up agrees with Python's `round` |
| ProfileAnalyzer.OverallMonotone | backend/services/profile_analyzer.py:254-258 | a higher GitHub or LeetCode score never lowers the overall score |
| ProfileScraper.BumpKeys | backend/services/profile_scraper.py:56 | `languages[lang] = languages.get(lang, 0) + 1` adds a key only when it is new, and then at the end of the insertion order |
| ProfileScraper.BumpCounts | backend/services/profile_scraper.py:56 | the same statement adds one to the count of `lang` and to no other key |
| ProfileScraper.BumpPositive | backend/services/profile_scraper.py:56 | every count in the dict stays at least 1 |
| ProfileScraper.LanguageTallyExact | backend/services/profile_scraper.py:53-56 | after the loop the keys are the truthy languages without repeats in first-seen order, and each count is the number of repositories written in that language |
| ProfileScraper.CountLanguages | backend/services/profile_scraper.py:53-56 | the counting loop, with its in-place update of an existing key or append of a new one, builds exactly that dict |
| ProfileScraper.TopLanguagesSpec | backend/services/profile_scraper.py:58-59 | `top_languages` holds min(5, distinct languages) entries in non-increasing count order, ties keeping the dict's order, each with its exact repository count |
| ProfileScraper.TopReposSpec | backend/services/profile_scraper.py:78-88 | `top_repos` holds min(5, repositories) repositories, a prefix of the stable descending sort by stars (ties keep the input order), drawn from the input with multiplicity, and no repository left out has more stars than one kept |
| ProfileScraper.LanguageTierNeedsFive | backend/services/profile_scraper.py:59 | the analyzer sees at most 5 languages, and its top language tier is reached exactly when the repositories use at least five distinct languages |
| ProfileScraper.LastCountIsLast | backend/services/profile_scraper.py:172-178 | the last submission entry with a difficulty decides that difficulty's count |
| ProfileScraper.LastCountAbsent | backend/services/profile_scraper.py:165-170 | a difficulty with no entry keeps its initial 0 |
| ProfileScraper.FoldProblems | backend/services/profile_scraper.py:165-178 | the loop over `acSubmissionNum` yields, for each key, the count of the last entry naming it ("all" or "total" for the total); other difficulties are ignored |
| ProfileScraper.CacheWindow | backend/services/profile_scraper.py:274-279 | an entry stored at time t is served exactly up to t + 24 h, inclusive |
| ProfileScraper.StoreThenLookup | backend/services/profile_scraper.py:281-286 | storing and then looking up at the same time hits, returns the stored data and leaves the cache alone; other keys are unchanged |
| ProfileScraper.LookupEvictsOnlyKey | backend/services/profile_scraper.py:269-279 | a lookup removes only the looked-up key, and removes it exactly when it misses |
| ProfileScraper.Scraper.constructor | backend/services/profile_scraper.py:13-16 | a new scraper has an empty cache |
| ProfileScraper.Scraper.IsCached | backend/services/profile_scraper.py:269-279 | the answer is "present and at most 24 h old"; a present but expired entry is deleted, and nothing else changes |
| ProfileScraper.Scraper.CacheData | backend/services/profile_scraper.py:281-286 | the key now maps to the data stamped with the current time; other keys are unchanged |
| ProfileScraper.Scraper.ClearCache | backend/services/profile_scraper.py:288-290 | the cache is empty |
| ProfileScraper.Scraper.ScrapeGitHub | backend/services/profile_scraper.py:22-97 | a cache hit returns the stored data untouched, without using the API answer; a request error is returned and not cached; otherwise the built profile is returned and cached at the current time |
| ProfileScraper.Scraper.ScrapeLeetCode | backend/services/profile_scraper.py:103-201 | a cache hit returns the stored data; a request error or an answer with errors or no matched user gives an uncached error ("User not found" for the latter); otherwise the folded profile is returned and cached |
| InterviewAI.ExperienceLevel | backend/services/interview_ai.py:34-40 | Beginner exactly below 12 months, Expert exactly from 36 months, a missing count read as 0 |
| InterviewAI.ExperienceLevelMonotone | backend/services/interview_ai.py:34-40 | more experience never gives a lower level; a missing count is a beginner's |
| InterviewAI.GetUserProfile | backend/services/interview_ai.py:22-42 | `(None, None)` exactly without an active resume; otherwise the stored skill names and the derived level |
| InterviewAI.TagValueLeftmost | backend/services/interview_ai.py:106-131 | a score is read at the leftmost place where its tag is followed by a number |
| InterviewAI.TagValueAbsent | backend/services/interview_ai.py:128-131 | a score whose tag is missing defaults to 5.0 |
| InterviewAI.TagValueRoundTrip | backend/services/interview_ai.py:106-128 | a score written as "SCORE: n" is read back as n |
| InterviewAI.SectionEnd | backend/services/interview_ai.py:112-124 | the lazy `(.*?)` stops at the first place where the stop marker or the end anchor holds |
| InterviewAI.SectionStopsAtMarker | backend/services/interview_ai.py:112-118 | a found section never contains its stop marker |
| InterviewAI.Bullets | backend/services/interview_ai.py:115-121 | at most one item per line |
| InterviewAI.BulletsOfPlainLines | backend/services/interview_ai.py:115-121 | lines that do not start with '-' give no item |
| InterviewAI.ParseEvaluation | backend/services/interview_ai.py:127-136 | the whole evaluator text is kept as the feedback |
| InterviewAI.SectionAbsent | backend/services/interview_ai.py:112-125 | a section whose heading is missing is not found |
| InterviewAI.ParseEvaluationDefaults | backend/services/interview_ai.py:102-136 | a text with none of the markers gives scores of 5.0, "Good effort", "Keep practicing" and an empty model answer |
| InterviewAI.NoBulletsGivesDefault | backend/services/interview_ai.py:132-133 | a section without bullet lines falls back to its default text |
| InterviewAI.PerformanceLevel | backend/services/interview_ai.py:175-181 | "Job-Ready" exactly when the feedback mentions it, else "Intermediate" exactly when that is mentioned, else "Beginner" |
| InterviewSessions.FirstWithNumber | backend/routes/interview.py:123-129 | the earliest row with the question number, or none exactly when no row has it |
| InterviewSessions.QuestionOneFirst | backend/routes/interview.py:224-226 | ordering the rows by number puts question 1's row first |
| InterviewSessions.AnsweredCount | backend/routes/interview.py:234-242 | no more answered rows than rows |
| InterviewSessions.AnsweredAppend | backend/routes/interview.py:234-242 | the count and the total of answered rows are additive |
| InterviewSessions.AnsweredPermutation | backend/routes/interview.py:224-242 | the count and the total depend only on which rows there are, not on their order |
| InterviewSessions.OrderingKeepsTally | backend/routes/interview.py:224-242 | the ordered rows start with question 1 and tally as the stored rows do |
| InterviewSessions.AnsweredCountPositive | backend/routes/interview.py:226-245 | an answered row makes the count positive, so the "no answers to evaluate" branch cannot be taken once question 1 is answered |
| InterviewSessions.MeanWithinScale | backend/routes/interview.py:259 | with every answered score on the 0..10 scale, so is the mean |
| InterviewSessions.TotalWithinScale | backend/routes/interview.py:234-242 | the total lies between 0 and 10 times the count |
| InterviewSessions.TallyAnswered | backend/routes/interview.py:230-242 | the loop's total and count are the sum of the answered rows' scores (a missing score as 0) and their number |
| InterviewSessions.Answered | backend/routes/interview.py:138-146 | only the submitted row changes: it gets the answer and the evaluation |
| InterviewSessions.NextQuestion | backend/routes/interview.py:149-198 | a next question exactly below question 5, numbered one higher |
| InterviewSessions.SubmitKeepsNumbering | backend/routes/interview.py:138-174 | submitting keeps question 1 first and every number within 1..5; the last row is the new question when one is asked |
| InterviewSessions.InterviewSession.constructor | backend/routes/interview.py:59-65 | a fresh session with no questions and no result |
| InterviewSessions.InterviewSession.Start | backend/routes/interview.py:28-93 | refusals in order: not a job seeker, missing fields, unknown type, no skills; otherwise a session holding question 1 with the resume's level as its difficulty |
| InterviewSessions.InterviewSession.SubmitAnswer | backend/routes/interview.py:100-200 | a request missing `session_id`, `question_number` or `answer` is refused first, then another user's session, then an unknown question number, each changing nothing; otherwise the first row with that number stores the answer and evaluation, and below question 5 the next question is added and counted |
| InterviewSessions.InterviewSession.Complete | backend/routes/interview.py:207-270 | refused for another user, a completed session, or an unanswered question 1, with nothing changed; otherwise the end time, the mean of the answered scores, the level and the feedback are stored once |
| InterviewSessions.CompleteTwice | backend/routes/interview.py:220-221 | after a successful completion a second one is refused, and the stored end time, score, level and feedback stay those of the first |
| Validators.SplitIsForced | backend/utils/validators.py:9-10 | in any split the e-mail pattern accepts, the '@' is the first one and the final '.' the last one |
| Validators.EmailShapeExactly | backend/utils/validators.py:9-10 | the forced split succeeds exactly when some split of the text fits the pattern |
| Validators.ValidateEmailIsPattern | backend/utils/validators.py:7-10 | `validate_email` accepts exactly the texts `re.match` of the anchored pattern accepts, including one trailing newline before `$` |
| Validators.ValidatePassword | backend/utils/validators.py:13-30 | valid exactly with 8 characters, an upper-case letter, a lower-case letter and a digit; otherwise the message of the first failing check, in the order length, upper, lower, digit |
| Validators.FileSizeLimitInclusive | backend/utils/validators.py:39-41 | a file of exactly the limit passes, one byte more fails |
| Validators.ValidateFileExtension | backend/utils/validators.py:33-36 | accepted exactly when the name has a '.' with no '.' after it and the lower-cased text after it is allowed |
| Validators.ExtensionIsLastSegment | backend/utils/validators.py:35-36 | `rsplit('.', 1)[1].lower()` is the lower-cased text after the one '.' that has no '.' after it |
| Validators.ExtensionIgnoresCase | backend/utils/validators.py:33-36 | the extension check ignores the case of the name |
| FileHandler.GetFileExtension | backend/utils/file_handler.py:53-55 | None exactly for a name without '.'; otherwise a lower-case text without '.'; `allowed_file` holds exactly when it is "pdf" or "docx" |
| FileHandler.StoredNameKeepsExtension | backend/utils/file_handler.py:25-26 | the stored name `{user_id}_{hex}.{ext}` has the upload's extension, so it passes the same check |
| FileHandler.UploadFolder.constructor | backend/utils/file_handler.py:29-30 | an empty upload folder |
| FileHandler.UploadFolder.SaveUploadedFile | backend/utils/file_handler.py:16-39 | a missing or disallowed upload is refused with "Invalid file type" and the folder unchanged; otherwise the file is stored under the joined path and the path, name and size are returned |
| FileHandler.UploadFolder.DeleteFile | backend/utils/file_handler.py:42-50 | true exactly when the file existed; afterwards it is gone and no other file changed |
| JobsPage.CutoffDays | frontend/scripts/jobs.js:148-152 | the look-back is 1, 7 or 30 days, or none for an unknown choice |
| JobsPage.Keep | frontend/scripts/jobs.js:84-158 | filtering never adds jobs: every survivor is a loaded job that passes every stage |
| JobsPage.KeepNothing | frontend/scripts/jobs.js:79 | with no stage run, the copy of all jobs is kept whole |
| JobsPage.GuardedStep | frontend/scripts/jobs.js:82-160 | a guarded `filtered = filtered.filter(...)` step on the survivors of earlier stages is the filter by all stages so far |
| JobsPage.KeepSameTest | frontend/scripts/jobs.js:82-160 | stage lists every job passes alike keep the same jobs, so a stage whose guard is off changes nothing |
| JobsPage.KeepIsSubsequence | frontend/scripts/jobs.js:84-158 | the survivors are exactly the passing jobs, in their original order |
| JobsPage.RunFilters | frontend/scripts/jobs.js:78-160 | the chain of eight guarded filters leaves exactly the jobs that pass all running stages |
| JobsPage.FilterJobs | frontend/scripts/jobs.js:78-160 | the filtered list is no longer than the loaded one and holds exactly the loaded jobs that pass every running stage |
| JobsPage.SortJobsPermutation | frontend/scripts/jobs.js:208-235 | every sort choice is a permutation; a keyed choice orders by newest date, highest maximum salary, lowest minimum salary or best match; "relevance" and unknown choices keep the order |
| JobsPage.TotalPages | frontend/scripts/jobs.js:469 | `Math.ceil(n / 12)`: the fewest pages of twelve that hold n jobs |
| JobsPage.PageSliceBounds | frontend/scripts/jobs.js:394-396 | a page holds at most twelve consecutive jobs starting at (page − 1) × 12, and is non-empty exactly for pages up to the page count |
| JobsPage.PageWindowBounds | frontend/scripts/jobs.js:476-483 | the numbered buttons run over a window that holds the current page and min(5, total) pages |
| JobsPage.JobsState.constructor | frontend/scripts/jobs.js:8-24 | the initial state: no jobs, page 1, no filters, sorted by relevance |
| JobsPage.JobsState.ShownJobs | frontend/scripts/jobs.js:394-396 | at most twelve jobs are shown |
| JobsPage.JobsState.ApplySort | frontend/scripts/jobs.js:208-235 | the sort menu's value or "relevance"; the filtered jobs are reordered by it without adding or losing any; nothing else changes |
| JobsPage.JobsState.ApplyFilters | frontend/scripts/jobs.js:78-168 | the filtering body: the filtered jobs are the sorted survivors of all the loaded jobs, back on page 1; the loaded jobs and the filters are unchanged |
| JobsPage.JobsState.CollectFilters | frontend/scripts/jobs.js:174-202 | the collector as intended: the seven form filters replace the stored ones while the search text stays, and the filtered jobs are a permutation of the survivors under them, sorted, back on page 1 |
| JobsPage.CallApplyFilters | frontend/scripts/jobs.js:174-202 | a call of the global `applyFilters` that returns yields only loaded jobs |
| JobsPage.CollectorNeverReturns | frontend/scripts/jobs.js:174-202 | with the global name bound to the collector, a call never yields jobs at any stack depth |
| JobsPage.FilterBodyReturns | frontend/scripts/jobs.js:78-168 | bound to the filtering body, one call yields the sorted survivors |
| JobsPage.JobsState.GoToPage | frontend/scripts/jobs.js:523-530 | a page within 1..total becomes current; any other request changes nothing |
| JobsPage.ExperienceBandsPartition | frontend/scripts/jobs.js:123-128 | the entry, mid and senior checkboxes split the required years into three disjoint bands covering every value |
| JobsPage.OnsiteIsTheRest | frontend/scripts/jobs.js:97-99 | "onsite" matches exactly the locations that are neither remote nor hybrid |
| Dashboard.ApplicationProgress | frontend/scripts/dashboard.js:278-287 | the bar is one of 0, 25, 50, 75, 100; full exactly for accepted or rejected, empty exactly for an unknown status |
| Dashboard.ProgressFollowsPipeline | frontend/scripts/dashboard.js:279-285 | the bar strictly grows along pending, reviewing, interview, accepted |
| Dashboard.DisplayName | frontend/scripts/dashboard.js:116 | the full name when present; otherwise the part of the e-mail before its first '@' (all of it when there is none) |
| Dashboard.Initials | frontend/scripts/dashboard.js:120-125 | at most two characters, already upper case |
| Dashboard.InitialsOfTwoWords | frontend/scripts/dashboard.js:120-125 | "first last" gives the upper-cased first letters of both words |
| Dashboard.ScoreColor | frontend/scripts/dashboard.js:381 | green exactly from 80, amber exactly from 60 below 80, red exactly below 60 |
| Dashboard.ScoreColorMonotone | frontend/scripts/dashboard.js:381 | a higher ATS score never gets a worse colour |
| Dashboard.OverflowTag | frontend/scripts/dashboard.js:400 | the "+k" tag appears exactly when there are more than five skills |
| Dashboard.SkillsAccounted | frontend/scripts/dashboard.js:397-400 | the shown tags are the first five skills, and their number plus the number printed on the overflow tag is the number of skills |
| Dashboard.ShownSkills | frontend/scripts/dashboard.js:397-399 | at most five skill tags, the first skills of the list, and all of them when there are at most five |
| Dashboard.AtsScore | frontend/scripts/dashboard.js:380 | `ats_score || 0`: a missing score reads as 0, any other score as itself |
| Dashboard.Capped | frontend/scripts/dashboard.js:255 | `slice(0, n)` is the first min(n, length) entries |
| Dashboard.ListsCapped | frontend/scripts/dashboard.js:255-306 | the applications widget shows min(5, count) entries, the saved-jobs widget min(3, count), and a short list whole |
| Dashboard.ValidateUpload | frontend/scripts/dashboard.js:494-505 | the upload starts exactly for one of the three document types at no more than 10 MiB; a wrong type is reported before the size |
| FormatUtils.AgeOf | frontend/scripts/utils.js:302-313 | the label class for each range of elapsed milliseconds: today, yesterday, days (negative included), weeks 1-4, months 1-12, years from 1; NaN for a date that does not parse |
| FormatUtils.AgeCountsWholeUnits | frontend/scripts/utils.js:306-313 | each printed count n is the whole number of its units elapsed, n units ≤ elapsed < n + 1 units, with `Math.floor` of days, then days / 7, / 30 or / 365 |
| FormatUtils.FormatDate | frontend/scripts/utils.js:302-314 | "Today" exactly within the first day, "Yesterday" exactly within the second, "NaN years ago" exactly for a date that does not parse; otherwise "n days/weeks/months/years ago" with n the whole number of those units elapsed (7, 30 and 365 days each) |
| FormatUtils.AgeUnitMonotone | frontend/scripts/utils.js:306-313 | an older date never gets a finer unit than a newer one |
| FormatUtils.Round | frontend/scripts/utils.js:318-319 | `toFixed(0)` of a non-negative number is within half a unit of it |
| FormatUtils.FormatSalary | frontend/scripts/utils.js:316-320 | "Not specified" exactly when neither bound is truthy; "min k+" when only the maximum is missing; otherwise the range |
| FormatUtils.ThousandsReadsBack | frontend/scripts/utils.js:318-319 | the printed thousands are digits whose value is the salary in thousands to within half a unit |
| FormatUtils.Fixed0 | frontend/scripts/utils.js:318-319 | `toFixed(0)` prints digits whose value is the nearest integer, halves up, with a '-' before them for a negative number |
| FormatUtils.TruncateText | frontend/scripts/utils.js:322-325 | a text within the limit is returned whole; a longer one becomes a prefix of the limit's length (0 for a negative limit) followed by "..." |
| FormatUtils.TruncateIdempotent | frontend/scripts/utils.js:322-325 | cutting an already cut text changes nothing |
| ProfileAnalysisView.ScoreDescription | frontend/scripts/profile-analysis.js:144-150 | each description exactly for its score band: from 80, 60-80, 40-60, 20-40, below 20 |
| ProfileAnalysisView.ScoreOrZero | frontend/scripts/profile-analysis.js:124 | `overall_score || 0`: a missing score reads as 0, any other score as itself |
| ProfileAnalysisView.ScoreDescriptionMonotone | frontend/scripts/profile-analysis.js:144-150 | a higher score never gets a lower tier |
| ProfileAnalysisView.ProfileLinks | frontend/scripts/profile-analysis.js:73-101 | four cards; each connected exactly when its field is truthy; GitHub and LeetCode URLs built from the username, LinkedIn's from "https://" and the stored URL, Portfolio's the stored URL |
| ProfileAnalysisView.ConnectedCardsLink | frontend/scripts/profile-analysis.js:73-101 | a card is connected exactly when it carries a profile link |
| ProfileAnalysisView.InsightRows | frontend/scripts/profile-analysis.js:298-310 | the single placeholder row for no insights, else one row per insight in order |
| ProfileAnalysisView.RecommendationBadges | frontend/scripts/profile-analysis.js:331-334 | label and timeline are the given values or "Medium" and "Ongoing" when missing |
| ProfileAnalysisView.PriorityClassMatchesLabel | frontend/scripts/profile-analysis.js:331-332 | the badge's style class is its label in lower case, defaults included |
| ProfileAnalysisView.ProblemsChart.constructor | frontend/scripts/profile-analysis.js:239-241 | the page starts with no chart |
| ProfileAnalysisView.ProblemsChart.Render | frontend/scripts/profile-analysis.js:239-257 | without a canvas nothing changes; otherwise an existing chart is destroyed and the new one holds the three counts, missing ones as 0 |
| Sorting.SortDescSortedPermutation | backend/services/recommendation_engine.py:233 | `sort(key=..., reverse=True)` orders by the key, highest first, and returns a permutation of its input |
| Sorting.SortDescStable | backend/services/recommendation_engine.py:233 | the sort is stable: elements with equal keys keep their input order |
| Sorting.SortDescOfSorted | frontend/scripts/jobs.js:214-231 | a list already in order is left as it is |
| Sorting.PrefixKeepsLargest | backend/services/profile_scraper.py:87 | a prefix of the descending sort is drawn from the input, and every element it leaves out has a key no larger than any it keeps |
| Sorting.PyTake | backend/services/recommendation_engine.py:236 | `xs[:limit]` is a prefix of min(limit, length) elements, or for a negative limit all but the last −limit |
| Sorting.JsSlice | frontend/scripts/jobs.js:396 | `slice(start, end)` is the stretch between the two bounds, each counted from the end when negative and clamped to the list, and empty when the start is not before the end; within the list it is exactly `xs[start..end]` |
| Text.Search | backend/services/resume_parser_simple.py:60-70 | `re.search` reports the leftmost position where the pattern matches, and none exactly when it matches nowhere |
| Text.FindAllMatches | backend/services/resume_parser_simple.py:108-110 | every match `re.finditer`/`re.findall` reports is a match of the pattern, and nothing matches before the first one |
| Text.FindAllOrdered | backend/services/resume_parser_simple.py:108-110 | for a pattern with non-empty matches, the reported matches are non-empty, in text order, do not overlap, and each is the leftmost one after the previous |
| Text.Dedup | backend/services/resume_parser_simple.py:87-88 | `list(dict.fromkeys(xs))` holds exactly the elements of `xs`, each once |
| Text.DedupKeepsFirstSeenOrder | backend/services/resume_parser_simple.py:87-88 | deduplicating a prefix gives a prefix of the result, so elements keep their first-seen order |
| Text.JoinSplit | backend/services/resume_parser_simple.py:133-144 | joining the pieces of `split` with the same separator gives the text back |

## Left out

- TF-IDF and cosine similarity: computed by a foreign library. The similarity is a function parameter; only the empty-list guard is modelled.
- PDF and DOCX decoding: done by foreign libraries. The decoder is a parameter, and a decoding failure is its error result. The spaCy model `resume_parser.py` loads is never used and is not modelled.
- Language-model calls (question generation, answer evaluation, final feedback, improvement recommendations) and the prompt templates. Their answers are parameters.
- HTTP requests to the GitHub and LeetCode APIs. The API answers, or the request error, are parameters of the scrape methods.
- Database, Flask routing and the ORM models. The rows an operation reads are parameters, and the rows it writes are object fields.
- The clock. Posting ages, the current time and the elapsed time of a date are parameters.
- InterviewSessions.InterviewSession.Complete: the "no answers to evaluate" branch is not modelled. It cannot be reached once question 1 is answered (`InterviewSessions.AnsweredCountPositive`).
- InterviewSessions.InterviewSession.Complete: does not model `round(..., 2)` in the response, because it only formats the stored mean for display.
- InterviewSessions.InterviewSession.SubmitAnswer: takes the evaluation the service returns rather than calling it, because that call is a language-model request.
- InterviewAI.ParseEvaluation: the exception fallback is not modelled. Reading digits as a number cannot fail, so the fallback is never reached.
- RecommendationEngine.Explain: does not round to two decimals, because Python's float rounding is left out. Its sums are therefore exact.
- FormatUtils.Fixed0: models `toFixed(0)` only below 10^21, where JavaScript does not switch to exponent notation.
- FormatUtils.TruncateText: lengths count characters, whereas JavaScript's `length` and `substring` count UTF-16 code units, so a text with characters outside the Basic Multilingual Plane is cut at a different place.
- Dashboard.Initials: `n[0]` is the first character here, whereas JavaScript takes the first UTF-16 code unit, which is half of a character outside the Basic Multilingual Plane.
- JobsPage.JobsState.ApplyFilters: models the filtering body that the collector at `jobs.js` line 174 evidently means to run; the page as written never reaches it (see Findings).
- FormatUtils.AgeOf: an unparseable date is None rather than NaN arithmetic. It lands on the "NaN years ago" label, as in the browser.
- Case mapping, `\w`, `\d` and `\b`: ASCII only. Non-ASCII case folding and Unicode digit classes are left out.
- FileHandler.UploadFolder.DeleteFile: does not model the failure of `os.remove` on an existing file, since the file system is not modelled.
- FileHandler.UploadFolder.SaveUploadedFile: `secure_filename` is imported but never called, so the model has no counterpart for it; `os.makedirs` and the write itself are abstracted into the folder map.
- DOM rendering, toasts, animation, debounce and throttle, the fetch client, and dashboard data loading.
- The recruiter dashboard: its initials code is the dashboard's, modelled in `Dashboard.Initials`.
- Development scripts: they only start, stop or probe servers.
- The similar-jobs route: it is TF-IDF only.

## Findings

| source | as written | input that shows it | evidently intended | confidence | as-written member | corrected member |
|---|---|---|---|---|---|---|
| frontend/scripts/jobs.js:174-202 | `window.applyFilters = function () { …; applyFilters(); }` replaces the global binding that the top-level `function applyFilters` creates in a classic script, so the bare call inside the collector, and every other `applyFilters()` call, calls the collector again | loading the page: `loadJobs` calls `applyFilters()`, the collector calls itself until the stack is exhausted, and the catch shows "Failed to load jobs" | the collector reads the form's filters and then runs the filtering body of lines 78-168 once | medium, not executed; assumes the script is loaded as a classic script, which its inline `onclick` handlers need | JobsPage.CollectorNeverReturns | JobsPage.JobsState.CollectFilters |
