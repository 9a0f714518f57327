/** Character classes, case mapping and the string operations that the Python and
    JavaScript sources take from their standard libraries (`str.lower`, `in`,
    `split`, `join`, `strip`, `str(int)`, `int(str)`, `rsplit('.', 1)`), plus the
    two scanning disciplines of Python's `re` module: `re.search` (leftmost start)
    and `re.findall`/`re.finditer` (successive non-overlapping matches).

    Letters and digits are the ASCII ones: the regex classes `\w` and `\d` and
    `lower()`/`upper()` are modelled on ASCII only. Whitespace is Python's full
    `str.isspace()` set, which is what `\s` and `strip()` use. */
module Text {
  import opened Wrappers

  predicate IsUpper(c: char) { 'A' <= c <= 'Z' }
  predicate IsLower(c: char) { 'a' <= c <= 'z' }
  predicate IsDigit(c: char) { '0' <= c <= '9' }
  predicate IsAlpha(c: char) { IsUpper(c) || IsLower(c) }
  predicate IsAlnum(c: char) { IsAlpha(c) || IsDigit(c) }

  /** The regex class `\w`. */
  predicate IsWordChar(c: char) { IsAlnum(c) || c == '_' }

  /** The regex class `\s`, and the characters `str.strip()` removes. */
  predicate IsSpace(c: char) {
    || c == ' '
    || '\t' <= c <= '\r'
    || '\U{1C}' <= c <= '\U{1F}'
    || c == '\U{85}' || c == '\U{A0}' || c == '\U{1680}'
    || '\U{2000}' <= c <= '\U{200A}'
    || c == '\U{2028}' || c == '\U{2029}' || c == '\U{202F}' || c == '\U{205F}' || c == '\U{3000}'
  }

  predicate AllDigits(s: string) { forall k :: 0 <= k < |s| ==> IsDigit(s[k]) }

  function Lower(c: char): (r: char)
    ensures IsUpper(c) ==> IsLower(r)
    ensures !IsUpper(r)
  {
    if IsUpper(c) then (c as int + 32) as char else c
  }

  function Upper(c: char): (r: char)
    ensures IsLower(c) ==> IsUpper(r)
    ensures !IsLower(r)
  {
    if IsLower(c) then (c as int - 32) as char else c
  }

  function LowerStr(s: string): (r: string)
    ensures |r| == |s|
  {
    seq(|s|, k requires 0 <= k < |s| => Lower(s[k]))
  }

  function UpperStr(s: string): (r: string)
    ensures |r| == |s|
  {
    seq(|s|, k requires 0 <= k < |s| => Upper(s[k]))
  }

  /** Case-insensitive equality of one character, as `re.IGNORECASE` compares. */
  predicate SameLetter(a: char, b: char) { Lower(a) == Lower(b) }

  predicate ContainsAt(s: string, p: string, i: nat) {
    i + |p| <= |s| && s[i..i + |p|] == p
  }

  /** Python's `p in s` and JavaScript's `s.includes(p)`. */
  predicate Contains(s: string, p: string) {
    exists i: nat :: i + |p| <= |s| && ContainsAt(s, p, i)
  }

  predicate StartsWith(s: string, p: string) {
    |p| <= |s| && s[..|p|] == p
  }

  /** `str.split(sep)` for a one-character separator (Python and JavaScript agree). */
  function Split(s: string, sep: char): (parts: seq<string>)
    ensures |parts| >= 1
    ensures forall k :: 0 <= k < |parts| ==> sep !in parts[k]
    decreases |s|
  {
    if |s| == 0 then [""]
    else
      var rest := Split(s[1..], sep);
      if s[0] == sep then [""] + rest
      else [[s[0]] + rest[0]] + rest[1..]
  }

  /** `sep.join(parts)`. */
  function Join(parts: seq<string>, sep: string): string
    decreases |parts|
  {
    if |parts| == 0 then ""
    else if |parts| == 1 then parts[0]
    else parts[0] + sep + Join(parts[1..], sep)
  }

  /** Joining the pieces of a split with the same separator gives the text back. */
  lemma {:induction false} JoinSplit(s: string, sep: char)
    ensures Join(Split(s, sep), [sep]) == s
    decreases |s|
  {
    if |s| > 0 {
      var rest := Split(s[1..], sep);
      JoinSplit(s[1..], sep);
      if s[0] == sep {
        assert Split(s, sep) == [""] + rest;
        assert ([""] + rest)[1..] == rest;
      } else {
        var parts := Split(s, sep);
        assert parts == [[s[0]] + rest[0]] + rest[1..];
        if |rest| == 1 {
          assert Join(parts, [sep]) == [s[0]] + rest[0];
        } else {
          assert parts[1..] == rest[1..];
          assert Join(rest, [sep]) == rest[0] + [sep] + Join(rest[1..], [sep]);
        }
      }
    }
  }

  function TrimStart(s: string, drop: char -> bool): (r: string)
    ensures |r| <= |s| && r == s[|s| - |r|..]
    ensures r == [] || !drop(r[0])
    ensures forall k :: 0 <= k < |s| - |r| ==> drop(s[k])
    decreases |s|
  {
    if |s| > 0 && drop(s[0]) then TrimStart(s[1..], drop) else s
  }

  function TrimEnd(s: string, drop: char -> bool): (r: string)
    ensures |r| <= |s| && r == s[..|r|]
    ensures r == [] || !drop(r[|r| - 1])
    ensures forall k :: |r| <= k < |s| ==> drop(s[k])
    decreases |s|
  {
    if |s| > 0 && drop(s[|s| - 1]) then TrimEnd(s[..|s| - 1], drop) else s
  }

  /** `s.strip(chars)`: drop the leading and trailing characters that satisfy `drop`. */
  function StripBy(s: string, drop: char -> bool): string {
    TrimEnd(TrimStart(s, drop), drop)
  }

  /** `s.strip()`. */
  function Strip(s: string): string {
    StripBy(s, IsSpace)
  }

  function DigitChar(d: nat): (c: char)
    requires d < 10
    ensures IsDigit(c)
  {
    ('0' as int + d) as char
  }

  function DigitValue(c: char): (d: nat)
    requires IsDigit(c)
    ensures d < 10
  {
    c as int - '0' as int
  }

  /** `str(n)` / `${n}` for a non-negative integer. */
  function NatToString(n: nat): (r: string)
    ensures |r| >= 1 && AllDigits(r)
    decreases n
  {
    if n < 10 then [DigitChar(n)] else NatToString(n / 10) + [DigitChar(n % 10)]
  }

  function IntToString(n: int): string {
    if n < 0 then "-" + NatToString(-n) else NatToString(n)
  }

  /** `int(s)` for a string of decimal digits. */
  function DigitsValue(s: string): nat
    requires AllDigits(s)
    decreases |s|
  {
    if |s| == 0 then 0 else DigitsValue(s[..|s| - 1]) * 10 + DigitValue(s[|s| - 1])
  }

  /** Printing a number and reading it back gives the number. */
  lemma {:induction false} DigitsValueOfNatToString(n: nat)
    ensures DigitsValue(NatToString(n)) == n
    decreases n
  {
    var r := NatToString(n);
    if n >= 10 {
      DigitsValueOfNatToString(n / 10);
      assert r[..|r| - 1] == NatToString(n / 10);
    }
  }

  function LastIndexOf(s: string, c: char): (r: Option<nat>)
    ensures r.Some? ==> r.value < |s| && s[r.value] == c && c !in s[r.value + 1..]
    ensures r.None? ==> c !in s
    decreases |s|
  {
    if |s| == 0 then None
    else if s[|s| - 1] == c then Some(|s| - 1)
    else
      var r := LastIndexOf(s[..|s| - 1], c);
      assert r.Some? ==> s[r.value + 1..] == s[..|s| - 1][r.value + 1..] + [s[|s| - 1]];
      assert r.None? ==> s == s[..|s| - 1] + [s[|s| - 1]];
      r
  }

  function FirstIndexOf(s: string, c: char): (r: Option<nat>)
    ensures r.Some? ==> r.value < |s| && s[r.value] == c && c !in s[..r.value]
    ensures r.None? ==> c !in s
    decreases |s|
  {
    if |s| == 0 then None
    else if s[0] == c then Some(0)
    else
      var r := FirstIndexOf(s[1..], c);
      assert r.Some? ==> s[..r.value + 1] == [s[0]] + s[1..][..r.value];
      match r
      case Some(k) => Some(k + 1)
      case None => None
  }

  /** The lower-cased text after the last '.', as `name.rsplit('.', 1)[1].lower()`;
      None when the name has no '.'. */
  function ExtensionOf(name: string): (r: Option<string>)
    ensures r.None? <==> '.' !in name
    ensures r.Some? ==> '.' !in r.value
  {
    match LastIndexOf(name, '.')
    case Some(k) => Some(LowerStr(name[k + 1..]))
    case None => None
  }

  /** The leftmost start `i >= from` at which `at` matches: the scan of
      `re.search`. `at(s, i)` gives the end of the match that the regex engine
      would report at `i`, with a payload (a captured group). */
  function Search<T>(s: string, from: nat, at: (string, nat) -> Option<(nat, T)>): (r: Option<(nat, nat, T)>)
    ensures r.Some? ==> from <= r.value.0 <= |s| && at(s, r.value.0) == Some((r.value.1, r.value.2))
    ensures r.Some? ==> forall q :: from <= q < r.value.0 ==> at(s, q).None?
    ensures r.None? ==> forall q :: from <= q <= |s| ==> at(s, q).None?
    decreases |s| + 1 - from
  {
    if from > |s| then None
    else
      match at(s, from)
      case Some(m) => Some((from, m.0, m.1))
      case None => Search(s, from + 1, at)
  }

  /** Every match the matcher reports is non-empty and ends inside the text. */
  ghost predicate Advances<T>(at: (string, nat) -> Option<(nat, T)>) {
    forall s: string, i: nat :: at(s, i).Some? ==> i < at(s, i).value.0 <= |s|
  }

  /** The successive non-overlapping matches of `re.findall`/`re.finditer`
      from `from` on: after a match ending at `e` the scan resumes at `e`.
      (None of the modelled patterns matches the empty string, so the
      resumption point is always past the match start.) */
  function FindAll<T>(s: string, from: nat, at: (string, nat) -> Option<(nat, T)>): seq<(nat, nat, T)>
    decreases |s| + 1 - from
  {
    if from > |s| then []
    else
      match at(s, from)
      case Some(m) =>
        var next := if from < m.0 <= |s| then m.0 else from + 1;
        [(from, m.0, m.1)] + FindAll(s, next, at)
      case None => FindAll(s, from + 1, at)
  }

  /** Every reported match is a match of `at` at or after `from`, and nothing
      matches before the first one. */
  lemma {:induction false} FindAllMatches<T>(s: string, from: nat, at: (string, nat) -> Option<(nat, T)>)
    ensures var r := FindAll(s, from, at);
      && (forall k :: 0 <= k < |r| ==> from <= r[k].0 <= |s| && at(s, r[k].0) == Some((r[k].1, r[k].2)))
      && (forall q :: from <= q <= |s| && (|r| == 0 || q < r[0].0) ==> at(s, q).None?)
    decreases |s| + 1 - from
  {
    if from <= |s| {
      match at(s, from)
      case Some(m) =>
        var next := if from < m.0 <= |s| then m.0 else from + 1;
        FindAllMatches(s, next, at);
        var rest := FindAll(s, next, at);
        assert FindAll(s, from, at) == [(from, m.0, m.1)] + rest;
      case None =>
        FindAllMatches(s, from + 1, at);
    }
  }

  /** Two consecutive matches of `r` do not overlap, and nothing matches between them. */
  ghost predicate Consecutive<T>(s: string, r: seq<(nat, nat, T)>, at: (string, nat) -> Option<(nat, T)>, k: nat)
    requires 0 < k < |r|
  {
    r[k - 1].1 <= r[k].0 && forall q :: r[k - 1].1 <= q < r[k].0 ==> at(s, q).None?
  }

  /** For a matcher whose matches are non-empty, the matches `FindAll` reports are
      non-empty, in increasing order, non-overlapping, and each is the leftmost
      match after the end of the one before. */
  lemma {:induction false} FindAllOrdered<T>(s: string, from: nat, at: (string, nat) -> Option<(nat, T)>)
    requires Advances(at)
    ensures forall k :: 0 <= k < |FindAll(s, from, at)| ==> FindAll(s, from, at)[k].0 < FindAll(s, from, at)[k].1 <= |s|
    ensures forall k :: 0 < k < |FindAll(s, from, at)| ==> Consecutive(s, FindAll(s, from, at), at, k)
    decreases |s| + 1 - from
  {
    var r := FindAll(s, from, at);
    FindAllMatches(s, from, at);
    if from <= |s| {
      match at(s, from)
      case Some(m) =>
        var rest := FindAll(s, m.0, at);
        assert r == [(from, m.0, m.1)] + rest;
        FindAllOrdered(s, m.0, at);
        FindAllMatches(s, m.0, at);
        forall k | 0 < k < |r|
          ensures Consecutive(s, r, at, k)
        {
          if k == 1 {
            assert r[1] == rest[0];
          } else {
            assert Consecutive(s, rest, at, k - 1);
            assert r[k - 1] == rest[k - 2] && r[k] == rest[k - 1];
          }
        }
      case None =>
        assert r == FindAll(s, from + 1, at);
        FindAllOrdered(s, from + 1, at);
    }
  }

  /** Python/JavaScript truthiness of an optional string: present and non-empty. */
  predicate Truthy(o: Option<string>) { o.Some? && |o.value| > 0 }

  predicate NoDup<T(==)>(xs: seq<T>) {
    forall i, j :: 0 <= i < j < |xs| ==> xs[i] != xs[j]
  }

  /** The keys of a list of (key, value) pairs, in order. */
  function Firsts<V>(pairs: seq<(string, V)>): (r: seq<string>)
    ensures |r| == |pairs| && forall k :: 0 <= k < |pairs| ==> r[k] == pairs[k].0
  {
    seq(|pairs|, k requires 0 <= k < |pairs| => pairs[k].0)
  }

  /** `list(dict.fromkeys(xs))`: each element once, at its first occurrence. */
  function Dedup(xs: seq<string>): (r: seq<string>)
    ensures forall x :: x in r <==> x in xs
    ensures NoDup(r)
    decreases |xs|
  {
    if |xs| == 0 then []
    else
      var d := Dedup(xs[..|xs| - 1]);
      var x := xs[|xs| - 1];
      assert forall y :: y in xs <==> y in xs[..|xs| - 1] || y == x by {
        assert xs == xs[..|xs| - 1] + [x];
      }
      if x in d then d else d + [x]
  }

  /** First-seen order: deduplicating any prefix gives a prefix of the result. */
  lemma {:induction false} DedupKeepsFirstSeenOrder(xs: seq<string>, n: nat)
    requires n <= |xs|
    ensures Dedup(xs[..n]) <= Dedup(xs)
    decreases |xs|
  {
    if n < |xs| {
      var init := xs[..|xs| - 1];
      DedupKeepsFirstSeenOrder(init, n);
      assert init[..n] == xs[..n];
    } else {
      assert xs[..n] == xs;
    }
  }

  /** Python's `$` without MULTILINE: the end of the text, or just before a
      newline that ends it. */
  predicate EndAnchor(s: string, j: nat) {
    j == |s| || (j + 1 == |s| && s[j] == '\n')
  }

  lemma SliceOfSlice(s: string, a: nat, b: nat, c: nat, d: nat)
    requires a <= b <= |s| && c <= d <= b - a
    ensures s[a..b][c..d] == s[a + c..a + d]
  {
    forall k | 0 <= k < d - c
      ensures s[a..b][c..d][k] == s[a + c..a + d][k]
    {
      assert s[a..b][c..d][k] == s[a + c + k];
    }
  }
}
