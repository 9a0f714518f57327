/** Rule-based resume extraction (`backend/services/resume_parser_simple.py`).

    From the text of a PDF or DOCX resume it extracts contact details, taxonomy
    skills, degrees, dated experience entries and a total experience in months,
    and rates the result on a 0–10 ATS rubric. The document decoders are
    foreign libraries: their output is a parameter. `resume_parser.py` carries
    line-for-line the same extractors, so these members model both files. */
module ResumeParserSimple {
  import opened Wrappers
  import opened Text
  import opened ResumePatterns

  // ---------------------------------------------------------------- text extraction

  datatype DocumentKind = Pdf | Docx

  datatype ParseError =
    | NoExtension                     // `rsplit('.', 1)[1]` on a name without '.' raises IndexError
    | UnsupportedFormat(ext: string)  // the ValueError for any other extension
    | DecodeFailed(message: string)   // the decoder library failed

  /** The decoder for a document kind, applied to the file: the extracted text or an error message. */
  type Decoder = DocumentKind -> Result<string, string>

  /** Dispatch on the lower-cased text after the last '.': only "pdf" and "docx" are accepted. */
  function DocumentKindOf(path: string): (r: Result<DocumentKind, ParseError>)
    ensures r == Success(Pdf) <==> ExtensionOf(path) == Some("pdf")
    ensures r == Success(Docx) <==> ExtensionOf(path) == Some("docx")
    ensures r == Failure(NoExtension) <==> '.' !in path
    ensures r.Failure? && r.error.UnsupportedFormat? ==> ExtensionOf(path) == Some(r.error.ext)
  {
    match ExtensionOf(path)
    case None => Failure(NoExtension)
    case Some(ext) =>
      if ext == "pdf" then Success(Pdf)
      else if ext == "docx" then Success(Docx)
      else Failure(UnsupportedFormat(ext))
  }

  /** `extract_text`: the text the matching decoder produces. */
  function ExtractText(path: string, decode: Decoder): (r: Result<string, ParseError>)
    ensures r.Success? ==> DocumentKindOf(path).Success? && decode(DocumentKindOf(path).value) == Success(r.value)
    ensures DocumentKindOf(path).Failure? ==> r == Failure(DocumentKindOf(path).error)
    ensures DocumentKindOf(path).Success? ==> (r.Success? <==> decode(DocumentKindOf(path).value).Success?)
    ensures DocumentKindOf(path).Success? && decode(DocumentKindOf(path).value).Failure? ==>
      r == Failure(DecodeFailed(decode(DocumentKindOf(path).value).error))
  {
    match DocumentKindOf(path)
    case Failure(e) => Failure(e)
    case Success(kind) =>
      match decode(kind)
      case Success(t) => Success(t)
      case Failure(m) => Failure(DecodeFailed(m))
  }

  // ---------------------------------------------------------------- skills

  /** The skill taxonomy: categories in file order, each with its skills. */
  type Taxonomy = seq<(string, seq<string>)>

  datatype SkillsData = SkillsData(allSkills: seq<string>, categorized: map<string, string>)

  /** (skill, category) for each skill of `skills`, in order, that occurs as a
      whole word in the lower-cased text. */
  function CategoryHits(textLower: string, category: string, skills: seq<string>): seq<(string, string)>
    decreases |skills|
  {
    if |skills| == 0 then []
    else
      var skill := skills[|skills| - 1];
      CategoryHits(textLower, category, skills[..|skills| - 1])
        + (if FindWholeWord(textLower, LowerStr(skill)) then [(skill, category)] else [])
  }

  /** The hits over the whole taxonomy, category by category. */
  function Hits(textLower: string, taxonomy: Taxonomy): seq<(string, string)>
    decreases |taxonomy|
  {
    if |taxonomy| == 0 then []
    else
      var last := taxonomy[|taxonomy| - 1];
      Hits(textLower, taxonomy[..|taxonomy| - 1]) + CategoryHits(textLower, last.0, last.1)
  }

  /** The dict filled by `skill_categories[skill] = category`: later hits overwrite earlier ones. */
  function CategoryMap(hits: seq<(string, string)>): (m: map<string, string>)
    ensures forall s :: s in m <==> s in Firsts(hits)
    decreases |hits|
  {
    if |hits| == 0 then map[]
    else
      var init := hits[..|hits| - 1];
      var h := hits[|hits| - 1];
      assert Firsts(hits) == Firsts(init) + [h.0];
      CategoryMap(init)[h.0 := h.1]
  }

  /** Hit `k` is the last hit for skill `s`. */
  predicate LastHitFor(hits: seq<(string, string)>, s: string, k: nat) {
    k < |hits| && hits[k].0 == s && forall j :: k < j < |hits| ==> hits[j].0 != s
  }

  /** Each skill is mapped to the category of its last hit. */
  lemma {:induction false} CategoryMapLastWins(hits: seq<(string, string)>, s: string)
    requires s in CategoryMap(hits)
    ensures exists k: nat :: LastHitFor(hits, s, k) && hits[k].1 == CategoryMap(hits)[s]
    decreases |hits|
  {
    var init := hits[..|hits| - 1];
    var h := hits[|hits| - 1];
    if h.0 == s {
      assert LastHitFor(hits, s, |hits| - 1);
    } else {
      CategoryMapLastWins(init, s);
      var k: nat :| LastHitFor(init, s, k) && init[k].1 == CategoryMap(init)[s];
      assert LastHitFor(hits, s, k);
    }
  }

  lemma NamesSnoc(hits: seq<(string, string)>, h: (string, string))
    ensures Firsts(hits + [h]) == Firsts(hits) + [h.0]
  {
  }

  lemma CategoryMapSnoc(hits: seq<(string, string)>, h: (string, string))
    ensures CategoryMap(hits + [h]) == CategoryMap(hits)[h.0 := h.1]
  {
    assert (hits + [h])[..|hits|] == hits;
  }

  /** The result `extract_skills` computes. */
  function SkillsOf(text: string, taxonomy: Taxonomy): SkillsData {
    var hits := Hits(LowerStr(text), taxonomy);
    SkillsData(Dedup(Firsts(hits)), CategoryMap(hits))
  }

  /** `extract_skills`: every taxonomy skill whose lower-cased form occurs as a
      whole word in the lower-cased text, deduplicated, with its category. */
  method ExtractSkills(text: string, taxonomy: Taxonomy) returns (data: SkillsData)
    ensures data == SkillsOf(text, taxonomy)
  {
    var textLower := LowerStr(text);
    var found: seq<string> := [];
    var categories: map<string, string> := map[];
    ghost var hits: seq<(string, string)> := [];
    for c := 0 to |taxonomy|
      invariant hits == Hits(textLower, taxonomy[..c])
      invariant found == Firsts(hits) && categories == CategoryMap(hits)
    {
      var (category, skills) := taxonomy[c];
      for k := 0 to |skills|
        invariant hits == Hits(textLower, taxonomy[..c]) + CategoryHits(textLower, category, skills[..k])
        invariant found == Firsts(hits) && categories == CategoryMap(hits)
      {
        var skill := skills[k];
        assert skills[..k + 1][..k] == skills[..k];
        if FindWholeWord(textLower, LowerStr(skill)) {
          NamesSnoc(hits, (skill, category));
          CategoryMapSnoc(hits, (skill, category));
          hits := hits + [(skill, category)];
          found := found + [skill];
          categories := categories[skill := category];
        }
      }
      assert skills[..|skills|] == skills;
      assert taxonomy[..c + 1][..c] == taxonomy[..c];
    }
    assert taxonomy[..|taxonomy|] == taxonomy;
    data := SkillsData(Dedup(found), categories);
  }

  /** The skill `s` is listed under `category` in the taxonomy. */
  predicate Listed(taxonomy: Taxonomy, category: string, s: string) {
    exists c :: 0 <= c < |taxonomy| && taxonomy[c].0 == category && s in taxonomy[c].1
  }

  lemma {:induction false} CategoryHitsExact(textLower: string, category: string, skills: seq<string>)
    ensures forall h :: h in CategoryHits(textLower, category, skills) <==>
      h.1 == category && h.0 in skills && WholeWordIn(textLower, LowerStr(h.0))
    decreases |skills|
  {
    if |skills| > 0 {
      CategoryHitsExact(textLower, category, skills[..|skills| - 1]);
      assert skills == skills[..|skills| - 1] + [skills[|skills| - 1]];
    }
  }

  /** A hit is a listed skill that occurs as a whole word, and every listed skill
      that occurs is a hit. */
  lemma {:induction false} HitsExact(textLower: string, taxonomy: Taxonomy)
    ensures forall h :: h in Hits(textLower, taxonomy) <==>
      Listed(taxonomy, h.1, h.0) && WholeWordIn(textLower, LowerStr(h.0))
    decreases |taxonomy|
  {
    if |taxonomy| > 0 {
      var init := taxonomy[..|taxonomy| - 1];
      var last := taxonomy[|taxonomy| - 1];
      HitsExact(textLower, init);
      CategoryHitsExact(textLower, last.0, last.1);
      forall h: (string, string)
        ensures Listed(taxonomy, h.1, h.0) <==> Listed(init, h.1, h.0) || (h.1 == last.0 && h.0 in last.1)
      {
        if Listed(taxonomy, h.1, h.0) && !(h.1 == last.0 && h.0 in last.1) {
          var c :| 0 <= c < |taxonomy| && taxonomy[c].0 == h.1 && h.0 in taxonomy[c].1;
          assert c < |init| && init[c] == taxonomy[c];
        }
        if Listed(init, h.1, h.0) {
          var c :| 0 <= c < |init| && init[c].0 == h.1 && h.0 in init[c].1;
          assert taxonomy[c] == init[c];
        }
      }
    }
  }

  /** A skill is found exactly when it is listed under some category and its
      lower-cased form occurs as a whole word in the lower-cased text. */
  lemma SkillsFoundExact(text: string, taxonomy: Taxonomy, s: string)
    ensures s in SkillsOf(text, taxonomy).allSkills <==>
      (exists c :: Listed(taxonomy, c, s)) && WholeWordIn(LowerStr(text), LowerStr(s))
  {
    var hits := Hits(LowerStr(text), taxonomy);
    HitsExact(LowerStr(text), taxonomy);
    assert s in SkillsOf(text, taxonomy).allSkills <==> s in Firsts(hits);
    if s in Firsts(hits) {
      var k :| 0 <= k < |hits| && Firsts(hits)[k] == s;
      assert hits[k] in hits;
    }
    if (exists c :: Listed(taxonomy, c, s)) && WholeWordIn(LowerStr(text), LowerStr(s)) {
      var c :| Listed(taxonomy, c, s);
      assert (s, c) in hits;
      var k :| 0 <= k < |hits| && hits[k] == (s, c);
      assert Firsts(hits)[k] == s;
    }
  }

  /** The skills come once each, in first-match order over the
      category-then-skill iteration: the skills found among the first `n` hits
      are a prefix of the result. */
  lemma SkillsFirstSeenOrder(text: string, taxonomy: Taxonomy, n: nat)
    requires n <= |Hits(LowerStr(text), taxonomy)|
    ensures NoDup(SkillsOf(text, taxonomy).allSkills)
    ensures Dedup(Firsts(Hits(LowerStr(text), taxonomy))[..n]) <= SkillsOf(text, taxonomy).allSkills
  {
    DedupKeepsFirstSeenOrder(Firsts(Hits(LowerStr(text), taxonomy)), n);
  }

  /** Exactly the found skills are categorised, each under a category that
      lists it, namely the category of its last hit. */
  lemma SkillsCategorized(text: string, taxonomy: Taxonomy, s: string)
    ensures s in SkillsOf(text, taxonomy).categorized <==> s in SkillsOf(text, taxonomy).allSkills
    ensures s in SkillsOf(text, taxonomy).categorized ==>
      && Listed(taxonomy, SkillsOf(text, taxonomy).categorized[s], s)
      && exists k: nat :: LastHitFor(Hits(LowerStr(text), taxonomy), s, k)
           && Hits(LowerStr(text), taxonomy)[k].1 == SkillsOf(text, taxonomy).categorized[s]
  {
    var hits := Hits(LowerStr(text), taxonomy);
    var m := CategoryMap(hits);
    if s in m {
      HitsExact(LowerStr(text), taxonomy);
      CategoryMapLastWins(hits, s);
      var k: nat :| LastHitFor(hits, s, k) && hits[k].1 == m[s];
      assert hits[k] in hits;
    }
  }

  // ---------------------------------------------------------------- education

  datatype Education = Education(degree: string, year: Option<string>, context: string)

  /** `text[max(0, start - 100):min(len(text), end + 100)]`. */
  function Window(text: string, start: nat, end: nat): (w: string)
    requires start <= end <= |text|
    ensures |w| <= end - start + 200
  {
    var lo := if start >= 100 then start - 100 else 0;
    var hi := if end + 100 <= |text| then end + 100 else |text|;
    text[lo..hi]
  }

  /** The entry for a degree matched at `text[start..end]`: the body of the
      loop over `re.finditer`, which slices the window, searches it for a year
      and strips it. */
  function EducationEntry(text: string, start: nat, end: nat): Education
    requires start <= end <= |text|
  {
    var w := Window(text, start, end);
    Education(text[start..end], FindYear(w), Strip(w))
  }

  /** An entry holds the matched degree text, the leftmost 19xx/20xx year in
      the 100-character window around the match (or none when the window holds
      no such year), and the stripped window as its context. */
  lemma EducationEntryFields(text: string, start: nat, end: nat)
    requires start <= end <= |text|
    ensures var r := EducationEntry(text, start, end);
      && r.degree == text[start..end]
      && (r.year.Some? ==>
           && |r.year.value| == 4 && AllDigits(r.year.value) && r.year.value[..2] in {"19", "20"}
           && exists i: nat :: ContainsAt(Window(text, start, end), r.year.value, i))
      && (r.year.Some? ==>
           var w := Window(text, start, end);
           exists i: nat :: i + 4 <= |w| && YearAt(w, i).Some? && r.year.value == w[i..i + 4]
                            && forall q: nat :: q < i ==> YearAt(w, q).None?)
      && (r.year.None? ==> forall i: nat :: i <= |Window(text, start, end)| ==> YearAt(Window(text, start, end), i).None?)
      && r.context == Strip(Window(text, start, end))
      && |r.context| <= end - start + 200
  {
    var w := Window(text, start, end);
    assert |Strip(w)| <= |w|;
  }

  /** A degree pattern matches at `text[st..e]`. */
  predicate DegreeAt(text: string, p: nat, st: nat, e: nat) {
    p < |DegreePatterns| && st < e <= |text| && DegreeMatch(p)(text, st) == Some((e, ()))
  }

  /** The matches of degree pattern `p`, as `re.finditer` yields them. */
  function DegreeMatches(text: string, p: nat): (ms: seq<(nat, nat, ())>)
    requires p < |DegreePatterns|
    ensures forall k :: 0 <= k < |ms| ==> ms[k].0 < ms[k].1 <= |text|
  {
    DegreeMatchAdvances(p);
    FindAllOrdered(text, 0, DegreeMatch(p));
    FindAll(text, 0, DegreeMatch(p))
  }

  /** Each reported match is a match of the pattern, and the matches come in
      text order without overlapping. */
  lemma DegreeMatchesFound(text: string, p: nat, k: nat)
    requires p < |DegreePatterns|
    requires k < |DegreeMatches(text, p)|
    ensures DegreeAt(text, p, DegreeMatches(text, p)[k].0, DegreeMatches(text, p)[k].1)
    ensures k > 0 ==> DegreeMatches(text, p)[k - 1].1 <= DegreeMatches(text, p)[k].0
  {
    DegreeMatchAdvances(p);
    FindAllOrdered(text, 0, DegreeMatch(p));
    FindAllMatches(text, 0, DegreeMatch(p));
    if k > 0 {
      assert Consecutive(text, FindAll(text, 0, DegreeMatch(p)), DegreeMatch(p), k);
    }
  }

  /** The entries for the matches `ms` of one pattern, in match order. */
  function PatternEntries(text: string, ms: seq<(nat, nat, ())>): (r: seq<Education>)
    requires forall k :: 0 <= k < |ms| ==> ms[k].0 < ms[k].1 <= |text|
    ensures |r| == |ms|
    ensures forall k :: 0 <= k < |ms| ==> r[k] == EducationEntry(text, ms[k].0, ms[k].1)
  {
    seq(|ms|, k requires 0 <= k < |ms| => EducationEntry(text, ms[k].0, ms[k].1))
  }

  lemma PatternEntriesSnoc(text: string, ms: seq<(nat, nat, ())>, m: nat)
    requires m < |ms|
    requires forall k :: 0 <= k < |ms| ==> ms[k].0 < ms[k].1 <= |text|
    ensures PatternEntries(text, ms[..m + 1]) == PatternEntries(text, ms[..m]) + [EducationEntry(text, ms[m].0, ms[m].1)]
  {
    var a, b := PatternEntries(text, ms[..m + 1]), PatternEntries(text, ms[..m]) + [EducationEntry(text, ms[m].0, ms[m].1)];
    forall k | 0 <= k < |a| ensures a[k] == b[k] {
      assert ms[..m + 1][k] == ms[k];
      if k < m {
        assert ms[..m][k] == ms[k];
      }
    }
  }

  /** The blocks of entries, one block per degree pattern. */
  function EntryBlocks(text: string): (bs: seq<seq<Education>>)
    ensures |bs| == |DegreePatterns|
    ensures forall p :: 0 <= p < |bs| ==> bs[p] == PatternEntries(text, DegreeMatches(text, p))
  {
    seq(|DegreePatterns|, p requires 0 <= p < |DegreePatterns| => PatternEntries(text, DegreeMatches(text, p)))
  }

  /** The blocks one after the other. */
  function Flatten<T>(bs: seq<seq<T>>): seq<T>
    decreases |bs|
  {
    if |bs| == 0 then [] else Flatten(bs[..|bs| - 1]) + bs[|bs| - 1]
  }

  /** Position `i` of the flattened blocks lies in block `pk.0`, at `pk.1`. */
  function FlatOrigin<T>(bs: seq<seq<T>>, i: nat): (pk: (nat, nat))
    requires i < |Flatten(bs)|
    ensures pk.0 < |bs| && pk.1 < |bs[pk.0]| && Flatten(bs)[i] == bs[pk.0][pk.1]
    decreases |bs|
  {
    var init := Flatten(bs[..|bs| - 1]);
    if i < |init| then
      var pk := FlatOrigin(bs[..|bs| - 1], i);
      assert bs[..|bs| - 1][pk.0] == bs[pk.0];
      pk
    else
      (|bs| - 1, i - |init|)
  }

  /** Element `k` of block `p` sits after the blocks before it. */
  lemma {:induction false} FlatPosition<T>(bs: seq<seq<T>>, p: nat, k: nat)
    requires p < |bs| && k < |bs[p]|
    ensures |Flatten(bs[..p])| + k < |Flatten(bs)|
    ensures Flatten(bs)[|Flatten(bs[..p])| + k] == bs[p][k]
    decreases |bs|
  {
    var init := bs[..|bs| - 1];
    if p < |bs| - 1 {
      FlatPosition(init, p, k);
      assert init[..p] == bs[..p] && init[p] == bs[p];
    } else {
      assert bs[..p] == init;
    }
  }

  lemma FlattenSnoc<T>(bs: seq<seq<T>>, p: nat)
    requires p < |bs|
    ensures Flatten(bs[..p + 1]) == Flatten(bs[..p]) + bs[p]
  {
    assert bs[..p + 1][..p] == bs[..p];
  }

  /** The entries `extract_education` collects. */
  function EducationOf(text: string): seq<Education> {
    Flatten(EntryBlocks(text))
  }

  /** `x` is the entry for the `k`-th match of degree pattern `p`. */
  predicate EntryOfMatch(text: string, p: nat, k: nat, x: Education) {
    && p < |DegreePatterns| && k < |DegreeMatches(text, p)|
    && x == EducationEntry(text, DegreeMatches(text, p)[k].0, DegreeMatches(text, p)[k].1)
  }

  /** Soundness: every entry is the entry for a match of a degree pattern,
      namely match `k` of pattern `p` for the `(p, k)` returned. */
  function EntryOrigin(text: string, i: nat): (pk: (nat, nat))
    requires i < |EducationOf(text)|
    ensures EntryOfMatch(text, pk.0, pk.1, EducationOf(text)[i])
  {
    var pk := FlatOrigin(EntryBlocks(text), i);
    BlockEntry(text, pk.0, pk.1);
    pk
  }

  /** Completeness: every match of every degree pattern has its entry, after
      the entries of the patterns before it and of its earlier matches. */
  lemma EducationComplete(text: string, p: nat, k: nat)
    requires p < |DegreePatterns| && k < |DegreeMatches(text, p)|
    ensures var i := |Flatten(EntryBlocks(text)[..p])| + k;
      i < |EducationOf(text)| && EntryOfMatch(text, p, k, EducationOf(text)[i])
  {
    FlatPosition(EntryBlocks(text), p, k);
    BlockEntry(text, p, k);
  }

  lemma BlockEntry(text: string, p: nat, k: nat)
    requires p < |DegreePatterns| && k < |DegreeMatches(text, p)|
    ensures k < |EntryBlocks(text)[p]| && EntryOfMatch(text, p, k, EntryBlocks(text)[p][k])
  {
  }

  /** `extract_education`: one entry per match of each degree pattern, patterns
      in order, with no de-duplication. */
  method ExtractEducation(text: string) returns (education: seq<Education>)
    ensures education == EducationOf(text)
  {
    var blocks := EntryBlocks(text);
    education := [];
    for p := 0 to |DegreePatterns|
      invariant education == Flatten(blocks[..p])
    {
      education := AppendPatternEntries(text, DegreeMatches(text, p), education);
      FlattenSnoc(blocks, p);
    }
    assert blocks[..|blocks|] == blocks;
  }

  /** The inner loop of `extract_education`: the entries of one pattern's
      matches appended in match order. */
  method AppendPatternEntries(text: string, matches: seq<(nat, nat, ())>, education: seq<Education>)
    returns (extended: seq<Education>)
    requires forall k :: 0 <= k < |matches| ==> matches[k].0 < matches[k].1 <= |text|
    ensures extended == education + PatternEntries(text, matches)
  {
    extended := education;
    for m := 0 to |matches|
      invariant extended == education + PatternEntries(text, matches[..m])
    {
      PatternEntriesSnoc(text, matches, m);
      extended := extended + [EducationEntry(text, matches[m].0, matches[m].1)];
    }
    assert matches[..|matches|] == matches;
  }

  // ---------------------------------------------------------------- experience

  datatype Experience = Experience(dateRange: string, context: string)

  /** `'\n'.join(lines[max(0, i - 2):min(len(lines), i + 5)]).strip()`. */
  function LineContext(lines: seq<string>, i: nat): string
    requires i < |lines|
  {
    var lo := if i >= 2 then i - 2 else 0;
    var hi := if i + 5 <= |lines| then i + 5 else |lines|;
    Strip(Join(lines[lo..hi], "\n"))
  }

  /** The entries for the first `n` lines: one for each line holding a date range. */
  function ExperienceUpTo(lines: seq<string>, n: nat): (r: seq<Experience>)
    requires n <= |lines|
    ensures |r| <= n
  {
    if n == 0 then [] else ExperienceUpTo(lines, n - 1) + LineEntry(lines, n - 1)
  }

  /** The entry a line contributes: one when it holds a date range. */
  function LineEntry(lines: seq<string>, i: nat): seq<Experience>
    requires i < |lines|
  {
    match FindDateRange(lines[i])
    case Some(d) => [Experience(d, LineContext(lines, i))]
    case None => []
  }

  /** Every entry comes from a line holding a date range, with that line's context. */
  lemma {:induction false} ExperienceSound(lines: seq<string>, n: nat, x: Experience)
    requires n <= |lines| && x in ExperienceUpTo(lines, n)
    ensures exists i :: 0 <= i < n && FindDateRange(lines[i]) == Some(x.dateRange) && x.context == LineContext(lines, i)
  {
    var init := ExperienceUpTo(lines, n - 1);
    assert ExperienceUpTo(lines, n) == init + LineEntry(lines, n - 1);
    if x in init {
      ExperienceSound(lines, n - 1, x);
    } else {
      assert x in LineEntry(lines, n - 1);
      assert FindDateRange(lines[n - 1]) == Some(x.dateRange) && x.context == LineContext(lines, n - 1);
    }
  }

  /** Every line holding a date range has its entry. */
  lemma {:induction false} ExperienceComplete(lines: seq<string>, n: nat, i: nat)
    requires i < n <= |lines| && FindDateRange(lines[i]).Some?
    ensures Experience(FindDateRange(lines[i]).value, LineContext(lines, i)) in ExperienceUpTo(lines, n)
  {
    var init := ExperienceUpTo(lines, n - 1);
    assert ExperienceUpTo(lines, n) == init + LineEntry(lines, n - 1);
    if i < n - 1 {
      ExperienceComplete(lines, n - 1, i);
    }
  }

  function ExperienceOf(text: string): seq<Experience> {
    var lines := Split(text, '\n');
    ExperienceUpTo(lines, |lines|)
  }

  /** `extract_experience`: the first date range of each line, with the lines
      around it as context, in line order. */
  method ExtractExperience(text: string) returns (experience: seq<Experience>)
    ensures experience == ExperienceOf(text)
  {
    var lines := Split(text, '\n');
    experience := [];
    for i := 0 to |lines|
      invariant experience == ExperienceUpTo(lines, i)
    {
      var dateMatch := FindDateRange(lines[i]);
      if dateMatch.Some? {
        var contextStart := if i >= 2 then i - 2 else 0;
        var contextEnd := if i + 5 <= |lines| then i + 5 else |lines|;
        var context := Join(lines[contextStart..contextEnd], "\n");
        experience := experience + [Experience(dateMatch.value, Strip(context))];
      }
    }
  }

  // ---------------------------------------------------------------- total experience

  /** The months one entry adds: (second − first four-digit run) × 12 when the
      range holds two runs, else 0. No ordering check is made. */
  function RangeMonths(dateRange: string): int {
    var years := FourDigitRuns(dateRange);
    if |years| >= 2 then (DigitsValue(years[1]) - DigitsValue(years[0])) * 12 else 0
  }

  function TotalMonths(entries: seq<Experience>): int
    decreases |entries|
  {
    if |entries| == 0 then 0 else TotalMonths(entries[..|entries| - 1]) + RangeMonths(entries[|entries| - 1].dateRange)
  }

  /** `calculate_total_experience`. */
  method CalculateTotalExperience(entries: seq<Experience>) returns (total: int)
    ensures total == TotalMonths(entries)
  {
    total := 0;
    for i := 0 to |entries|
      invariant total == TotalMonths(entries[..i])
    {
      var years := FourDigitRuns(entries[i].dateRange);
      if |years| >= 2 {
        var startYear: int := DigitsValue(years[0]);
        var endYear: int := DigitsValue(years[1]);
        total := total + (endYear - startYear) * 12;
      }
      assert entries[..i + 1][..i] == entries[..i];
    }
    assert entries[..|entries|] == entries;
  }

  /** The total is additive over the entry list. */
  lemma {:induction false} TotalMonthsAppend(a: seq<Experience>, b: seq<Experience>)
    ensures TotalMonths(a + b) == TotalMonths(a) + TotalMonths(b)
    decreases |b|
  {
    if |b| == 0 {
      assert a + b == a;
    } else {
      assert (a + b)[..|a + b| - 1] == a + b[..|b| - 1];
      TotalMonthsAppend(a, b[..|b| - 1]);
    }
  }

  /** When no entry's range runs backwards, the total is not negative. */
  lemma {:induction false} TotalMonthsNonNegative(entries: seq<Experience>)
    requires forall k :: 0 <= k < |entries| ==> RangeMonths(entries[k].dateRange) >= 0
    ensures TotalMonths(entries) >= 0
    decreases |entries|
  {
    if |entries| > 0 {
      TotalMonthsNonNegative(entries[..|entries| - 1]);
    }
  }

  const ReversedRange: string := "2023 - 2020"

  lemma ReversedRangeTail()
    ensures FindAll(ReversedRange, 7, FourDigitsAt) == [(7, 11, ())]
  {
    var s := ReversedRange;
    assert FourDigitsAt(s, 12) == None;
    assert FindAll(s, 12, FourDigitsAt) == [];
    assert FourDigitsAt(s, 11) == None;
    assert FindAll(s, 11, FourDigitsAt) == [];
    assert DigitsAt(s, 7, 4);
  }

  lemma ReversedRangeGap()
    ensures FindAll(ReversedRange, 4, FourDigitsAt) == FindAll(ReversedRange, 7, FourDigitsAt)
  {
    var s := ReversedRange;
    assert !IsDigit(s[4]) && !IsDigit(s[5]) && !IsDigit(s[6]);
    assert FourDigitsAt(s, 4) == None && FourDigitsAt(s, 5) == None && FourDigitsAt(s, 6) == None;
  }

  lemma ReversedRangeRuns()
    ensures FourDigitRuns(ReversedRange) == ["2023", "2020"]
  {
    var s := ReversedRange;
    ReversedRangeTail();
    ReversedRangeGap();
    assert DigitsAt(s, 0, 4);
    assert FindAll(s, 0, FourDigitsAt) == [(0, 4, ()), (7, 11, ())];
    assert s[0..4] == "2023" && s[7..11] == "2020";
  }

  /** A range written backwards subtracts: "2023 - 2020" counts as −36 months. */
  lemma ReversedRangeIsNegative()
    ensures TotalMonths([Experience(ReversedRange, "")]) == -36
  {
    ReversedRangeRuns();
    assert "2023"[..3] == "202" && "202"[..2] == "20" && "20"[..1] == "2" && "2"[..0] == "";
    assert "2020"[..3] == "202";
    assert DigitsValue("2023") == 2023 && DigitsValue("2020") == 2020;
    assert [Experience(ReversedRange, "")][..0] == [];
  }

  // ---------------------------------------------------------------- ATS score

  datatype Contact = Contact(email: Option<string>, phone: Option<string>)

  datatype ParsedResume = ParsedResume(
    contact: Contact, skills: SkillsData, education: seq<Education>,
    experience: seq<Experience>, totalExperienceMonths: int, rawText: string)

  const MaxAtsScore: real := 10.0

  function SkillPoints(count: nat): real {
    if count >= 10 then 3.0 else if count >= 5 then 2.0 else if count > 0 then 1.0 else 0.0
  }

  /** The rubric's points: contact (1 each), skills tier (up to 3), education (2), experience (3). */
  function AtsPoints(d: ParsedResume): (r: real)
    ensures 0.0 <= r <= MaxAtsScore
  {
    (if Truthy(d.contact.email) then 1.0 else 0.0)
    + (if Truthy(d.contact.phone) then 1.0 else 0.0)
    + SkillPoints(|d.skills.allSkills|)
    + (if |d.education| > 0 then 2.0 else 0.0)
    + (if |d.experience| > 0 then 3.0 else 0.0)
  }

  /** `calculate_ats_score`: the points, capped at 10 — a cap the rubric never reaches past. */
  method CalculateAtsScore(d: ParsedResume) returns (score: real)
    ensures score == AtsPoints(d)
    ensures 0.0 <= score <= MaxAtsScore
  {
    score := 0.0;
    if Truthy(d.contact.email) {
      score := score + 1.0;
    }
    if Truthy(d.contact.phone) {
      score := score + 1.0;
    }
    var skills := d.skills.allSkills;
    if |skills| >= 10 {
      score := score + 3.0;
    } else if |skills| >= 5 {
      score := score + 2.0;
    } else if |skills| > 0 {
      score := score + 1.0;
    }
    if |d.education| > 0 {
      score := score + 2.0;
    }
    if |d.experience| > 0 {
      score := score + 3.0;
    }
    score := if score < MaxAtsScore then score else MaxAtsScore;
  }

  /** More signals never lower the score. */
  lemma AtsMonotone(a: ParsedResume, b: ParsedResume)
    requires Truthy(a.contact.email) ==> Truthy(b.contact.email)
    requires Truthy(a.contact.phone) ==> Truthy(b.contact.phone)
    requires |a.skills.allSkills| <= |b.skills.allSkills|
    requires |a.education| > 0 ==> |b.education| > 0
    requires |a.experience| > 0 ==> |b.experience| > 0
    ensures AtsPoints(a) <= AtsPoints(b)
  {
  }

  /** A resume whose text starts with a phone number without a country code
      earns no phone point: what is stored is the empty capture of the optional
      group. */
  lemma PlainPhoneEarnsNoPoint(text: string, x: nat, y: nat, taxonomy: Taxonomy)
    requires PlainNumberAt(text, x, y)
    ensures ParseText(text, taxonomy).contact.phone == Some("")
    ensures AtsPoints(ParseText(text, taxonomy)) <= MaxAtsScore - 1.0
  {
    PlainPhoneCapturesNothing(text, x, y);
  }

  // ---------------------------------------------------------------- parse_resume

  /** The parsed record `parse_resume` builds from the text. */
  function ParseText(text: string, taxonomy: Taxonomy): (d: ParsedResume)
    ensures d.rawText <= text && |d.rawText| <= 1000
    ensures |text| <= 1000 ==> d.rawText == text
  {
    var experience := ExperienceOf(text);
    ParsedResume(
      Contact(FindEmail(text), FindPhone(text)),
      SkillsOf(text, taxonomy),
      EducationOf(text),
      experience,
      TotalMonths(experience),
      if |text| <= 1000 then text else text[..1000])
  }

  /** `parse_resume`: extract the text, run every extractor on it, and rate the result. */
  method ParseResume(path: string, decode: Decoder, taxonomy: Taxonomy) returns (r: Result<(ParsedResume, real), ParseError>)
    ensures r.Failure? <==> ExtractText(path, decode).Failure?
    ensures r.Failure? ==> r.error == ExtractText(path, decode).error
    ensures r.Success? ==> r.value.0 == ParseText(ExtractText(path, decode).value, taxonomy)
    ensures r.Success? ==> r.value.1 == AtsPoints(r.value.0)
  {
    var extracted := ExtractText(path, decode);
    if extracted.Failure? {
      return Failure(extracted.error);
    }
    var rawText := extracted.value;
    var email := FindEmail(rawText);
    var phone := FindPhone(rawText);
    var skills := ExtractSkills(rawText, taxonomy);
    var education := ExtractEducation(rawText);
    var experience := ExtractExperience(rawText);
    var total := CalculateTotalExperience(experience);
    var parsed := ParsedResume(Contact(email, phone), skills, education, experience, total,
      if |rawText| <= 1000 then rawText else rawText[..1000]);
    var score := CalculateAtsScore(parsed);
    return Success((parsed, score));
  }
}
