/** The regular expressions of the resume parser, each written out as the
    matcher Python's backtracking `re` engine runs: at a start position, the
    alternatives and repetition counts are tried in the engine's order and the
    first that completes the whole pattern is the match.

    Where a greedy repetition is followed by something its own class excludes
    (a run of spaces followed by a digit, say), giving back characters can never
    help, so only the longest run is tried; the comments say so where it is used. */
module ResumePatterns {
  import opened Wrappers
  import opened Text

  /** Length of the longest run of `cls` characters starting at `i`. */
  function RunLength(s: string, i: nat, cls: char -> bool): (n: nat)
    ensures n > 0 ==> i + n <= |s|
    ensures forall k :: i <= k < i + n ==> cls(s[k])
    ensures i + n < |s| ==> !cls(s[i + n])
    decreases |s| - i
  {
    if i < |s| && cls(s[i]) then 1 + RunLength(s, i + 1, cls) else 0
  }

  predicate DigitsAt(s: string, i: nat, n: nat) {
    i + n <= |s| && forall k :: i <= k < i + n ==> IsDigit(s[k])
  }

  /** `s[i..]` starts with `lit`, letters compared as `re.IGNORECASE` does. */
  predicate LitAtIgnoreCase(s: string, i: nat, lit: string) {
    i + |lit| <= |s| && forall k :: 0 <= k < |lit| ==> SameLetter(s[i + k], lit[k])
  }

  /** The regex assertion `\b` at position `i`: a word character on exactly one side. */
  predicate Boundary(s: string, i: int) {
    (0 < i <= |s| && IsWordChar(s[i - 1])) != (0 <= i < |s| && IsWordChar(s[i]))
  }

  // ---------------------------------------------------------------- skills

  /** `\b<p>\b` matches at `i`. */
  predicate WholeWordAt(s: string, p: string, i: nat) {
    ContainsAt(s, p, i) && Boundary(s, i) && Boundary(s, i + |p|)
  }

  predicate WholeWordIn(s: string, p: string) {
    exists i: nat :: i + |p| <= |s| && WholeWordAt(s, p, i)
  }

  function WholeWordMatch(p: string): (string, nat) -> Option<(nat, ())> {
    (s: string, i: nat) => if WholeWordAt(s, p, i) then Some((i + |p|, ())) else None
  }

  /** `re.search(r'\b' + re.escape(p) + r'\b', s)` finds a match. */
  function FindWholeWord(s: string, p: string): (found: bool)
    ensures found <==> WholeWordIn(s, p)
  {
    var r := Search(s, 0, WholeWordMatch(p));
    if r.Some? then
      assert WholeWordMatch(p)(s, r.value.0).Some?;
      assert WholeWordAt(s, p, r.value.0);
      true
    else
      assert !WholeWordIn(s, p) by {
        forall i: nat | i + |p| <= |s|
          ensures !WholeWordAt(s, p, i)
        {
          assert WholeWordMatch(p)(s, i).None?;
        }
      }
      false
  }

  // ---------------------------------------------------------------- email

  predicate IsLocalChar(c: char) { IsAlnum(c) || c == '.' || c == '_' || c == '%' || c == '+' || c == '-' }
  predicate IsDomainChar(c: char) { IsAlnum(c) || c == '.' || c == '-' }
  /** The class `[A-Z|a-z]`: the '|' is a literal member of the class. */
  predicate IsTldChar(c: char) { IsAlpha(c) || c == '|' }

  /** `[A-Z|a-z]{2,}\b` at `at`, trying `t` characters first and then fewer. */
  function TldEnd(s: string, at: nat, t: nat): (r: Option<nat>)
    requires t <= RunLength(s, at, IsTldChar)
    ensures r.Some? ==> at + 2 <= r.value <= |s| && Boundary(s, r.value)
    decreases t
  {
    if t < 2 then None
    else if Boundary(s, at + t) then Some(at + t)
    else TldEnd(s, at, t - 1)
  }

  /** `[A-Za-z0-9.-]+\.` then the top-level domain, trying the longest domain part first. */
  function DomainEnd(s: string, j: nat, d: nat): (r: Option<nat>)
    requires d <= RunLength(s, j, IsDomainChar)
    ensures r.Some? ==> j < r.value <= |s|
    decreases d
  {
    if d < 1 then None
    else if j + d < |s| && s[j + d] == '.' then
      match TldEnd(s, j + d + 1, RunLength(s, j + d + 1, IsTldChar))
      case Some(e) => Some(e)
      case None => DomainEnd(s, j, d - 1)
    else DomainEnd(s, j, d - 1)
  }

  /** `\b[A-Za-z0-9._%+-]+@[A-Za-z0-9.-]+\.[A-Z|a-z]{2,}\b` at `i`. The local part
      is the whole run before '@': a shorter run would end on a local character,
      not on '@'. */
  function EmailAt(s: string, i: nat): (r: Option<(nat, ())>)
    ensures r.Some? ==> i < r.value.0 <= |s|
  {
    if !Boundary(s, i) then None
    else
      var l := RunLength(s, i, IsLocalChar);
      if l >= 1 && i + l < |s| && s[i + l] == '@' then
        match DomainEnd(s, i + l + 1, RunLength(s, i + l + 1, IsDomainChar))
        case Some(e) => Some((e, ()))
        case None => None
      else None
  }

  /** The first address `re.findall` reports, which is the leftmost match. */
  function FindEmail(s: string): (r: Option<string>)
    ensures r.Some? ==> exists i: nat, e: nat :: i < e <= |s| && EmailAt(s, i) == Some((e, ())) && r.value == s[i..e]
                          && forall q: nat :: q < i ==> EmailAt(s, q).None?
    ensures r.None? <==> forall i: nat :: i <= |s| ==> EmailAt(s, i).None?
  {
    match Search(s, 0, EmailAt)
    case Some((i, e, _)) => Some(s[i..e])
    case None => None
  }

  // ---------------------------------------------------------------- phone

  /** The class `[-.\s]`. */
  predicate IsPhoneSep(c: char) { c == '-' || c == '.' || IsSpace(c) }

  /** `\(?\d{3}\)?[-.\s]?\d{3}[-.\s]?\d{4}` at `q`. Each optional character is
      taken when present: leaving it would put it where a digit is required. */
  function PhoneBody(s: string, q: nat): (r: Option<nat>)
    ensures r.Some? ==> q + 10 <= r.value <= |s|
  {
    var a := if q < |s| && s[q] == '(' then q + 1 else q;
    if !DigitsAt(s, a, 3) then None
    else
      var b := if a + 3 < |s| && s[a + 3] == ')' then a + 4 else a + 3;
      var c := if b < |s| && IsPhoneSep(s[b]) then b + 1 else b;
      if !DigitsAt(s, c, 3) then None
      else
        var d := if c + 3 < |s| && IsPhoneSep(s[c + 3]) then c + 4 else c + 3;
        if DigitsAt(s, d, 4) then Some(d + 4) else None
  }

  /** The group `(\+?\d{1,3}[-.\s]?)` with `n` digits after `p`, then the body;
      on failure the same with one digit fewer. The captured group is `s[i..]`
      up to the body. */
  function PhoneWithGroup(s: string, i: nat, p: nat, n: nat): (r: Option<(nat, string)>)
    requires i <= p && p + n <= |s|
    ensures r.Some? ==> i < r.value.0 <= |s|
    decreases n
  {
    if n == 0 then None
    else
      var g := p + n;
      var g' := if g < |s| && IsPhoneSep(s[g]) then g + 1 else g;
      match PhoneBody(s, g')
      case Some(e) => Some((e, s[i..g']))
      case None => PhoneWithGroup(s, i, p, n - 1)
  }

  /** `(\+?\d{1,3}[-.\s]?)?\(?\d{3}\)?[-.\s]?\d{3}[-.\s]?\d{4}` at `i`, paired with
      what group 1 captured: the optional group is tried first, and when it
      does not take part in the match it captures the empty string. */
  function PhoneAt(s: string, i: nat): (r: Option<(nat, string)>)
    ensures r.Some? ==> i < r.value.0 <= |s|
  {
    if i > |s| then None
    else
      var p := if i < |s| && s[i] == '+' then i + 1 else i;
      var run := RunLength(s, p, IsDigit);
      match PhoneWithGroup(s, i, p, if run < 3 then run else 3)
      case Some(m) => Some(m)
      case None =>
        match PhoneBody(s, i)
        case Some(e) => Some((e, ""))
        case None => None
  }

  /** The first element `re.findall` returns for the phone pattern. The pattern
      has a group, so that element is what group 1 captured, not the number. */
  function FindPhone(s: string): (r: Option<string>)
    ensures r.Some? ==> exists i: nat, e: nat :: i <= |s| && PhoneAt(s, i) == Some((e, r.value))
                          && forall q: nat :: q < i ==> PhoneAt(s, q).None?
    ensures r.None? <==> forall i: nat :: i <= |s| ==> PhoneAt(s, i).None?
  {
    match Search(s, 0, PhoneAt)
    case Some((_, _, g)) => Some(g)
    case None => None
  }

  // ---------------------------------------------------------------- degrees

  /** A pattern item: a letter, or an optional letter (`\.?`). */
  datatype Item = Lit(c: char) | Opt(c: char)

  function Word(w: string): seq<Item> {
    seq(|w|, k requires 0 <= k < |w| => Lit(w[k]))
  }

  /** Match the items at `j` ignoring case; an optional letter is first taken,
      then skipped. */
  function MatchItems(s: string, j: nat, items: seq<Item>): (r: Option<nat>)
    requires j <= |s|
    ensures r.Some? ==> j <= r.value <= |s|
    ensures r.Some? && |items| > 0 && items[0].Lit? ==> j < r.value
    decreases |items|
  {
    if |items| == 0 then Some(j)
    else
      match items[0]
      case Lit(c) =>
        if j < |s| && SameLetter(s[j], c) then MatchItems(s, j + 1, items[1..]) else None
      case Opt(c) =>
        var taken := if j < |s| && SameLetter(s[j], c) then MatchItems(s, j + 1, items[1..]) else None;
        if taken.Some? then taken else MatchItems(s, j, items[1..])
  }

  /** Every alternative of the degree patterns starts with a letter. */
  predicate StartsWithLetter(alts: seq<seq<Item>>) {
    forall a :: 0 <= a < |alts| ==> |alts[a]| > 0 && alts[a][0].Lit?
  }

  /** A group of alternatives `(A|B|...)`: the first that matches wins. */
  function AltsAt(s: string, i: nat, alts: seq<seq<Item>>): (r: Option<nat>)
    requires i <= |s|
    requires StartsWithLetter(alts)
    ensures r.Some? ==> i < r.value <= |s|
    decreases |alts|
  {
    if |alts| == 0 then None
    else
      match MatchItems(s, i, alts[0])
      case Some(e) => Some(e)
      case None => AltsAt(s, i, alts[1..])
  }

  /** `(Bachelor|B\.?S\.?|B\.?A\.?|B\.?Tech|B\.?E\.?)` */
  const Bachelor: seq<seq<Item>> := [
    Word("Bachelor"),
    [Lit('B'), Opt('.'), Lit('S'), Opt('.')],
    [Lit('B'), Opt('.'), Lit('A'), Opt('.')],
    [Lit('B'), Opt('.')] + Word("Tech"),
    [Lit('B'), Opt('.'), Lit('E'), Opt('.')]
  ]

  /** `(Master|M\.?S\.?|M\.?A\.?|M\.?Tech|MBA)` */
  const Master: seq<seq<Item>> := [
    Word("Master"),
    [Lit('M'), Opt('.'), Lit('S'), Opt('.')],
    [Lit('M'), Opt('.'), Lit('A'), Opt('.')],
    [Lit('M'), Opt('.')] + Word("Tech"),
    Word("MBA")
  ]

  /** `(Ph\.?D\.?|Doctorate)` */
  const Doctorate: seq<seq<Item>> := [
    [Lit('P'), Lit('h'), Opt('.'), Lit('D'), Opt('.')],
    Word("Doctorate")
  ]

  /** `(Associate|A\.?S\.?|A\.?A\.?)` */
  const Associate: seq<seq<Item>> := [
    Word("Associate"),
    [Lit('A'), Opt('.'), Lit('S'), Opt('.')],
    [Lit('A'), Opt('.'), Lit('A'), Opt('.')]
  ]

  /** The four degree patterns, in the order they are scanned. */
  const DegreePatterns: seq<seq<seq<Item>>> := [Bachelor, Master, Doctorate, Associate]

  lemma DegreePatternsStartWithLetters()
    ensures forall p :: 0 <= p < |DegreePatterns| ==> StartsWithLetter(DegreePatterns[p])
  {
    assert Word("Bachelor")[0] == Lit('B') && Word("Master")[0] == Lit('M') && Word("MBA")[0] == Lit('M');
    assert Word("Doctorate")[0] == Lit('D') && Word("Associate")[0] == Lit('A');
  }

  /** One degree pattern as a matcher, for `re.finditer(pattern, text, re.IGNORECASE)`. */
  function DegreeMatch(p: nat): (string, nat) -> Option<(nat, ())>
    requires p < |DegreePatterns|
  {
    DegreePatternsStartWithLetters();
    (s: string, i: nat) =>
      if i <= |s| then
        match AltsAt(s, i, DegreePatterns[p])
        case Some(e) => Some((e, ()))
        case None => None
      else None
  }

  lemma DegreeMatchAdvances(p: nat)
    requires p < |DegreePatterns|
    ensures Advances(DegreeMatch(p))
  {
    DegreePatternsStartWithLetters();
  }

  // ---------------------------------------------------------------- years

  /** `(19|20)\d{2}` at `i`. */
  function YearAt(s: string, i: nat): (r: Option<(nat, ())>)
    ensures r.Some? ==> r.value.0 == i + 4 <= |s|
  {
    if DigitsAt(s, i, 4) && ((s[i] == '1' && s[i + 1] == '9') || (s[i] == '2' && s[i + 1] == '0'))
    then Some((i + 4, ()))
    else None
  }

  /** The first year `re.search(r'(19|20)\d{2}', s)` finds. */
  function FindYear(s: string): (r: Option<string>)
    ensures r.Some? ==> |r.value| == 4 && AllDigits(r.value) && r.value[..2] in {"19", "20"}
    ensures r.Some? ==> exists i: nat :: ContainsAt(s, r.value, i)
    ensures r.Some? ==> exists i: nat :: i + 4 <= |s| && YearAt(s, i).Some? && r.value == s[i..i + 4]
                          && forall q: nat :: q < i ==> YearAt(s, q).None?
    ensures r.None? <==> forall i: nat :: i <= |s| ==> YearAt(s, i).None?
  {
    match Search(s, 0, YearAt)
    case Some((i, e, _)) =>
      assert s[i..e][..2] == [s[i], s[i + 1]];
      assert ContainsAt(s, s[i..e], i);
      Some(s[i..e])
    case None => None
  }

  /** `\d{4}` at `i`. */
  function FourDigitsAt(s: string, i: nat): (r: Option<(nat, ())>)
    ensures r.Some? ==> r.value.0 == i + 4 <= |s|
  {
    if DigitsAt(s, i, 4) then Some((i + 4, ())) else None
  }

  /** `re.findall(r'\d{4}', s)`. */
  function FourDigitRuns(s: string): (r: seq<string>)
    ensures forall k :: 0 <= k < |r| ==> |r[k]| == 4 && AllDigits(r[k])
  {
    var ms := FindAll(s, 0, FourDigitsAt);
    FindAllMatches(s, 0, FourDigitsAt);
    seq(|ms|, k requires 0 <= k < |ms| => s[ms[k].0..ms[k].1])
  }

  // ---------------------------------------------------------------- date ranges

  /** The class `[-–—]`: hyphen, en dash, em dash. */
  predicate IsDash(c: char) { c == '-' || c == '–' || c == '—' }

  /** `\w{3,9}\s+\d{4}` with exactly `k` word characters at `i`. The spaces are
      the whole run: fewer would leave a space where a digit is required. */
  function WordYearWith(s: string, i: nat, k: nat): (r: Option<nat>)
    ensures r.Some? ==> i + k < r.value <= |s|
  {
    if RunLength(s, i, IsWordChar) >= k then
      var sp := RunLength(s, i + k, IsSpace);
      if sp >= 1 && DigitsAt(s, i + k + sp, 4) then Some(i + k + sp + 4) else None
    else None
  }

  /** The second group `(\d{4}|\w{3,9}\s+\d{4}|Present|Current)`, which ends the pattern. */
  function RangeEnd(s: string, r: nat): (e: Option<nat>)
    ensures e.Some? ==> r < e.value <= |s|
  {
    if DigitsAt(s, r, 4) then Some(r + 4)
    else match FirstWordYear(s, r, 9)
      case Some(e) => Some(e)
      case None =>
        if LitAtIgnoreCase(s, r, "Present") then Some(r + 7)
        else if LitAtIgnoreCase(s, r, "Current") then Some(r + 7)
        else None
  }

  /** `\w{3,9}\s+\d{4}` at `i`, trying `k` word characters down to 3. */
  function FirstWordYear(s: string, i: nat, k: nat): (r: Option<nat>)
    ensures r.Some? ==> i < r.value <= |s|
    decreases k
  {
    if k < 3 then None
    else match WordYearWith(s, i, k)
      case Some(e) => Some(e)
      case None => FirstWordYear(s, i, k - 1)
  }

  /** `\s*[-–—]\s*` and the second group, after the first group ends at `p`. */
  function AfterStart(s: string, p: nat): (e: Option<nat>)
    ensures e.Some? ==> p < e.value <= |s|
  {
    var q := p + RunLength(s, p, IsSpace);
    if q < |s| && IsDash(s[q]) then RangeEnd(s, q + 1 + RunLength(s, q + 1, IsSpace))
    else None
  }

  /** The first group's second alternative `\w{3,9}\s+\d{4}` with `k` word
      characters and then the rest of the pattern, then with fewer. */
  function WordYearThenRest(s: string, i: nat, k: nat): (r: Option<nat>)
    ensures r.Some? ==> i < r.value <= |s|
    decreases k
  {
    if k < 3 then None
    else
      var rest := match WordYearWith(s, i, k) case Some(p) => AfterStart(s, p) case None => None;
      if rest.Some? then rest else WordYearThenRest(s, i, k - 1)
  }

  /** `(\d{4}|\w{3,9}\s+\d{4})\s*[-–—]\s*(\d{4}|\w{3,9}\s+\d{4}|Present|Current)`
      at `i`, with `re.IGNORECASE`. */
  function DateRangeAt(s: string, i: nat): (r: Option<(nat, ())>)
    ensures r.Some? ==> i < r.value.0 <= |s|
  {
    var first := if DigitsAt(s, i, 4) then AfterStart(s, i + 4) else None;
    if first.Some? then Some((first.value, ()))
    else
      match WordYearThenRest(s, i, 9)
      case Some(e) => Some((e, ()))
      case None => None
  }

  /** The date range `re.search` finds in a line, or None. */
  function FindDateRange(line: string): (r: Option<string>)
    ensures r.Some? ==> |r.value| > 0 && exists i: nat :: ContainsAt(line, r.value, i)
    ensures r.Some? ==> exists i: nat, e: nat :: i < e <= |line| && DateRangeAt(line, i) == Some((e, ())) && r.value == line[i..e]
                          && forall q: nat :: q < i ==> DateRangeAt(line, q).None?
    ensures r.None? <==> forall i: nat :: i <= |line| ==> DateRangeAt(line, i).None?
  {
    match Search(line, 0, DateRangeAt)
    case Some((i, e, _)) =>
      assert ContainsAt(line, line[i..e], i);
      Some(line[i..e])
    case None => None
  }

  // ---------------------------------------------------------------- examples

  /** A skill is found as a whole word only: "java" is not found in "javascript". */
  lemma WholeWordExample()
    ensures !FindWholeWord("javascript", "java")
    ensures FindWholeWord("java, javascript", "java")
  {
    assert !Boundary("javascript", 4);
    assert WholeWordAt("java, javascript", "java", 0);
  }

  lemma PlainPhoneBody()
    ensures PhoneBody("555-123-4567", 0) == Some(12)
  {
    var s := "555-123-4567";
    assert s[0] != '(' && DigitsAt(s, 0, 3);
    assert s[3] != ')' && IsPhoneSep(s[3]) && DigitsAt(s, 4, 3);
    assert IsPhoneSep(s[7]) && DigitsAt(s, 8, 4);
  }

  lemma PlainPhoneNoGroup()
    ensures PhoneWithGroup("555-123-4567", 0, 0, 3).None?
  {
    var s := "555-123-4567";
    assert IsPhoneSep(s[3]) && s[4] != '(' && DigitsAt(s, 4, 3) && s[7] != ')' && IsPhoneSep(s[7]);
    assert DigitsAt(s, 8, 3) && !IsPhoneSep(s[11]) && !DigitsAt(s, 11, 4);
    assert PhoneBody(s, 4).None?;
    assert !IsPhoneSep(s[2]) && s[2] != '(' && !DigitsAt(s, 2, 3);
    assert PhoneBody(s, 2).None?;
    assert !IsPhoneSep(s[1]) && s[1] != '(' && !DigitsAt(s, 1, 3);
    assert PhoneBody(s, 1).None?;
  }

  /** A number without a country code yields the empty capture of group 1. */
  lemma PlainPhoneExample()
    ensures FindPhone("555-123-4567") == Some("")
  {
    var s := "555-123-4567";
    assert RunLength(s, 0, IsDigit) == 3 by {
      assert !IsDigit(s[3]);
    }
    PlainPhoneNoGroup();
    PlainPhoneBody();
    assert PhoneAt(s, 0) == Some((12, ""));
  }

  /** `s` starts with a number written without a country code: three, three and
      four digits, each of the two gaps holding one separator or none, and no
      digit after the last block. `x` and `y` are where the second and the last
      block start. */
  predicate PlainNumberAt(s: string, x: nat, y: nat) {
    && (x == 3 || x == 4) && (y == x + 3 || y == x + 4) && DigitsAt(s, y, 4)
    && DigitsAt(s, 0, 3) && (x == 4 ==> IsPhoneSep(s[3]))
    && DigitsAt(s, x, 3) && (y == x + 4 ==> IsPhoneSep(s[x + 3]))
    && (y + 4 == |s| || !IsDigit(s[y + 4]))
  }

  /** The body of the pattern does not match a plain number at a start
      inside its first blocks: the last four digits it needs run into the
      character after the number. */
  lemma PlainBodyFails(s: string, x: nat, y: nat, q: nat)
    requires PlainNumberAt(s, x, y)
    requires 1 <= q <= 4 && (x == 4 ==> q != 3) && (x == 3 ==> q != 4)
    ensures PhoneBody(s, q).None?
  {
    assert IsDigit(s[0]) && IsDigit(s[1]) && IsDigit(s[2]);
    assert IsDigit(s[x]) && IsDigit(s[x + 1]) && IsDigit(s[x + 2]);
    assert IsDigit(s[y]) && IsDigit(s[y + 1]) && IsDigit(s[y + 2]) && IsDigit(s[y + 3]);
    assert !DigitsAt(s, y + 1, 4) by {
      assert y + 5 > |s| || !IsDigit(s[y + 4]);
    }
    if x == 4 {
      assert !IsDigit(s[3]);
      if q == 4 && y == 8 {
        assert !DigitsAt(s, 11, 4);
      }
    } else if y == 7 {
      assert !IsDigit(s[6]);
    }
  }

  lemma PlainBodyAtStart(s: string, x: nat, y: nat)
    requires PlainNumberAt(s, x, y)
    ensures PhoneBody(s, 0) == Some(y + 4)
  {
    assert IsDigit(s[0]) && !IsPhoneSep(s[2]);
    assert IsDigit(s[x]) && IsDigit(s[y]);
  }

  /** Every attempt with group 1 taking part fails. */
  lemma PlainGroupFails(s: string, x: nat, y: nat, n: nat)
    requires PlainNumberAt(s, x, y)
    requires n <= 3
    ensures PhoneWithGroup(s, 0, 0, n).None?
    decreases n
  {
    if n > 0 {
      assert IsDigit(s[1]) && IsDigit(s[2]);
      assert !IsPhoneSep(s[1]) && !IsPhoneSep(s[2]);
      PlainBodyFails(s, x, y, if n == 3 then x else n);
      PlainGroupFails(s, x, y, n - 1);
    }
  }

  /** The pattern matches at the start with group 1 skipped. */
  lemma PlainPhoneAtStart(s: string, x: nat, y: nat)
    requires PlainNumberAt(s, x, y)
    ensures PhoneAt(s, 0) == Some((y + 4, ""))
  {
    assert IsDigit(s[0]) && IsDigit(s[1]) && IsDigit(s[2]);
    assert s[0] != '+';
    var run := RunLength(s, 0, IsDigit);
    assert run >= 3;
    PlainGroupFails(s, x, y, 3);
    PlainBodyAtStart(s, x, y);
  }

  /** For such a text, group 1 cannot take part: every split of the leading
      digits into a prefix leaves too few digits for the body, so what the
      first match captures is the empty string. */
  lemma PlainPhoneCapturesNothing(s: string, x: nat, y: nat)
    requires PlainNumberAt(s, x, y)
    ensures FindPhone(s) == Some("")
  {
    PlainPhoneAtStart(s, x, y);
  }

  lemma PrefixedPhoneBody()
    ensures PhoneBody("+1 555-123-4567", 3) == Some(15)
  {
    var s := "+1 555-123-4567";
    assert s[3] != '(' && DigitsAt(s, 3, 3);
    assert s[6] != ')' && IsPhoneSep(s[6]) && DigitsAt(s, 7, 3);
    assert IsPhoneSep(s[10]) && DigitsAt(s, 11, 4);
  }

  /** With a country code the capture is the code and its separator. */
  lemma PrefixedPhoneExample()
    ensures FindPhone("+1 555-123-4567") == Some("+1 ")
  {
    var s := "+1 555-123-4567";
    assert RunLength(s, 1, IsDigit) == 1 by {
      assert !IsDigit(s[2]);
    }
    assert IsPhoneSep(s[2]);
    PrefixedPhoneBody();
    assert PhoneWithGroup(s, 0, 1, 1) == Some((15, s[0..3]));
    assert s[0..3] == "+1 ";
    assert PhoneAt(s, 0) == Some((15, "+1 "));
  }
}
