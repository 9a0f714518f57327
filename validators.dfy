/** The request validators of `backend/utils/validators.py`: the e-mail
    pattern, the password-strength rules, the upload extension check and the
    upload size limit. */
module Validators {
  import opened Wrappers
  import opened Text

  // ---------------------------------------------------------------- e-mail

  /** `[a-zA-Z0-9._%+-]`, the characters of the local part. */
  predicate IsLocalChar(c: char) {
    IsAlnum(c) || c == '.' || c == '_' || c == '%' || c == '+' || c == '-'
  }

  /** `[a-zA-Z0-9.-]`, the characters of the domain. */
  predicate IsDomainChar(c: char) { IsAlnum(c) || c == '.' || c == '-' }

  predicate AllLocal(s: string) { forall k :: 0 <= k < |s| ==> IsLocalChar(s[k]) }
  predicate AllDomain(s: string) { forall k :: 0 <= k < |s| ==> IsDomainChar(s[k]) }
  predicate AllAlpha(s: string) { forall k :: 0 <= k < |s| ==> IsAlpha(s[k]) }

  /** `b` is `local@domain.tld` with the '@' at `i` and the final '.' at `p`:
      a non-empty local part, a non-empty domain, and at least two letters. */
  predicate EmailSplit(b: string, i: nat, p: nat) {
    && 0 < i && i + 1 < p && p + 3 <= |b|
    && AllLocal(b[..i]) && b[i] == '@'
    && AllDomain(b[i + 1..p]) && b[p] == '.'
    && AllAlpha(b[p + 1..])
  }

  /** The pattern `^[a-zA-Z0-9._%+-]+@[a-zA-Z0-9.-]+\.[a-zA-Z]{2,}$` as
      `re.match` applies it: some split of the text up to a place where `$`
      holds. */
  ghost predicate EmailPatternMatches(s: string) {
    exists j: nat, i: nat, p: nat :: j <= |s| && EndAnchor(s, j) && EmailSplit(s[..j], i, p)
  }

  /** The split is forced: the '@' is the first one and the '.' the last one. */
  predicate EmailShape(b: string) {
    match FirstIndexOf(b, '@')
    case None => false
    case Some(i) =>
      match LastIndexOf(b, '.')
      case None => false
      case Some(p) => EmailSplit(b, i, p)
  }

  /** `validate_email`. */
  predicate ValidateEmail(email: string) {
    || EmailShape(email)
    || (|email| > 0 && email[|email| - 1] == '\n' && EmailShape(email[..|email| - 1]))
  }

  /** No local character is an '@' and no letter is a '.', so any split that
      matches is the one `EmailShape` picks. */
  lemma SplitIsForced(b: string, i: nat, p: nat)
    requires EmailSplit(b, i, p)
    ensures FirstIndexOf(b, '@') == Some(i)
    ensures LastIndexOf(b, '.') == Some(p)
  {
    assert '@' !in b[..i] by {
      forall k | 0 <= k < i ensures b[..i][k] != '@' {
        assert IsLocalChar(b[..i][k]);
      }
    }
    FirstIndexOfIs(b, '@', i);
    var tld := b[p + 1..];
    assert '.' !in tld by {
      forall k | 0 <= k < |tld| ensures tld[k] != '.' {
        assert IsAlpha(tld[k]);
      }
    }
    LastIndexOfIs(b, '.', p);
  }

  lemma EmailShapeExactly(b: string)
    ensures EmailShape(b) <==> exists i: nat, p: nat :: EmailSplit(b, i, p)
  {
    if exists i: nat, p: nat :: EmailSplit(b, i, p) {
      var i: nat, p: nat :| EmailSplit(b, i, p);
      SplitIsForced(b, i, p);
    }
  }

  /** `validate_email` accepts exactly the texts the pattern matches. */
  lemma ValidateEmailIsPattern(s: string)
    ensures ValidateEmail(s) <==> EmailPatternMatches(s)
  {
    EmailShapeExactly(s);
    if |s| > 0 {
      EmailShapeExactly(s[..|s| - 1]);
    }
    if ValidateEmail(s) {
      if EmailShape(s) {
        var i: nat, p: nat :| EmailSplit(s, i, p);
        assert s[..|s|] == s;
        assert EndAnchor(s, |s|) && EmailSplit(s[..|s|], i, p);
      } else {
        var i: nat, p: nat :| EmailSplit(s[..|s| - 1], i, p);
        assert EndAnchor(s, |s| - 1) && EmailSplit(s[..|s| - 1], i, p);
      }
    }
    if EmailPatternMatches(s) {
      var j: nat, i: nat, p: nat :| j <= |s| && EndAnchor(s, j) && EmailSplit(s[..j], i, p);
      if j == |s| {
        assert s[..j] == s;
      }
    }
  }

  // ---------------------------------------------------------------- password

  const PasswordTooShort := "Password must be at least 8 characters long"
  const PasswordNoUpper := "Password must contain at least one uppercase letter"
  const PasswordNoLower := "Password must contain at least one lowercase letter"
  const PasswordNoDigit := "Password must contain at least one digit"
  const PasswordValid := "Password is valid"

  predicate HasUpper(s: string) { exists k :: 0 <= k < |s| && IsUpper(s[k]) }
  predicate HasLower(s: string) { exists k :: 0 <= k < |s| && IsLower(s[k]) }
  predicate HasDigit(s: string) { exists k :: 0 <= k < |s| && IsDigit(s[k]) }

  /** `validate_password`: the checks run in the order length, upper case,
      lower case, digit, and the message is that of the first one that fails. */
  function ValidatePassword(password: string): (r: (bool, string))
    ensures r.0 <==> |password| >= 8 && HasUpper(password) && HasLower(password) && HasDigit(password)
    ensures r.0 <==> r.1 == PasswordValid
    ensures r.1 == PasswordTooShort <==> |password| < 8
    ensures r.1 == PasswordNoUpper <==> |password| >= 8 && !HasUpper(password)
    ensures r.1 == PasswordNoLower <==> |password| >= 8 && HasUpper(password) && !HasLower(password)
    ensures r.1 == PasswordNoDigit <==>
      |password| >= 8 && HasUpper(password) && HasLower(password) && !HasDigit(password)
  {
    if |password| < 8 then (false, PasswordTooShort)
    else if !HasUpper(password) then (false, PasswordNoUpper)
    else if !HasLower(password) then (false, PasswordNoLower)
    else if !HasDigit(password) then (false, PasswordNoDigit)
    else (true, PasswordValid)
  }

  // ---------------------------------------------------------------- uploads

  /** `validate_file_extension`: a '.' and the lower-cased last segment in the
      allowed set. */
  predicate ValidateFileExtension(filename: string, allowed: set<string>)
    ensures ValidateFileExtension(filename, allowed) <==>
      exists k :: 0 <= k < |filename| && filename[k] == '.' && '.' !in filename[k + 1..]
        && LowerStr(filename[k + 1..]) in allowed
  {
    ExtensionIsLastSegment(filename);
    match ExtensionOf(filename)
    case Some(ext) => ext in allowed
    case None => false
  }

  /** The extension is read after the one '.' that has no other '.' after it. */
  lemma ExtensionIsLastSegment(name: string)
    ensures forall k :: 0 <= k < |name| && name[k] == '.' && '.' !in name[k + 1..] ==>
      ExtensionOf(name) == Some(LowerStr(name[k + 1..]))
  {
    forall k | 0 <= k < |name| && name[k] == '.' && '.' !in name[k + 1..]
      ensures ExtensionOf(name) == Some(LowerStr(name[k + 1..]))
    {
      LastIndexOfIs(name, '.', k);
    }
  }

  /** `validate_file_size`: the limit itself is allowed. */
  predicate ValidateFileSize(fileSize: int, maxSize: int) { fileSize <= maxSize }

  lemma FileSizeLimitInclusive(maxSize: int)
    ensures ValidateFileSize(maxSize, maxSize)
    ensures !ValidateFileSize(maxSize + 1, maxSize)
  {
  }

  /** Upper- or lower-casing a name changes nothing about its extension. */
  lemma ExtensionIgnoresCase(name: string)
    ensures ExtensionOf(UpperStr(name)) == ExtensionOf(name)
    ensures ExtensionOf(LowerStr(name)) == ExtensionOf(name)
  {
    var up := UpperStr(name);
    forall k | 0 <= k < |name| ensures Lower(up[k]) == Lower(name[k]) {
      LowerOfUpper(name[k]);
    }
    SameExtension(name, up);
    SameExtension(name, LowerStr(name));
  }

  /** A text with the same length, its '.' characters in the same places and
      the same letters up to case has the same extension. */
  lemma SameExtension(name: string, t: string)
    requires |t| == |name|
    requires forall k :: 0 <= k < |name| ==> Lower(t[k]) == Lower(name[k])
    ensures ExtensionOf(t) == ExtensionOf(name)
  {
    assert forall k :: 0 <= k < |name| ==> (t[k] == '.' <==> name[k] == '.') by {
      forall k | 0 <= k < |name| ensures t[k] == '.' <==> name[k] == '.' {
        DotKeepsCase(t[k], name[k]);
      }
    }
    match LastIndexOf(name, '.')
    case None =>
      assert '.' !in t by {
        forall k | 0 <= k < |t| ensures t[k] != '.' { assert name[k] != '.'; }
      }
    case Some(p) =>
      LastIndexOfCase(name, t, p);
      var ext, text := name[p + 1..], t[p + 1..];
      forall k | 0 <= k < |ext| ensures Lower(text[k]) == Lower(ext[k]) {
        assert text[k] == t[p + 1 + k] && ext[k] == name[p + 1 + k];
      }
      LowerStrAgree(text, ext);
  }

  lemma LowerStrAgree(a: string, b: string)
    requires |a| == |b| && forall k :: 0 <= k < |a| ==> Lower(a[k]) == Lower(b[k])
    ensures LowerStr(a) == LowerStr(b)
  {
  }

  lemma DotKeepsCase(a: char, b: char)
    requires Lower(a) == Lower(b)
    ensures a == '.' <==> b == '.'
  {
  }

  lemma LowerOfUpper(c: char)
    ensures Lower(Upper(c)) == Lower(c)
  {
  }

  /** A string whose '.' characters sit where `s`'s do has its last '.' at the
      same place. */
  lemma LastIndexOfCase(s: string, t: string, p: nat)
    requires |t| == |s| && forall k :: 0 <= k < |s| ==> (t[k] == '.' <==> s[k] == '.')
    requires LastIndexOf(s, '.') == Some(p)
    ensures LastIndexOf(t, '.') == Some(p)
  {
    var tail := t[p + 1..];
    assert '.' !in tail by {
      forall k | 0 <= k < |tail| ensures tail[k] != '.' {
        assert s[p + 1 + k] == s[p + 1..][k];
      }
    }
    LastIndexOfIs(t, '.', p);
  }

  /** The last occurrence is the one with none after it. */
  lemma LastIndexOfIs(s: string, c: char, p: nat)
    requires p < |s| && s[p] == c && c !in s[p + 1..]
    ensures LastIndexOf(s, c) == Some(p)
  {
    var r := LastIndexOf(s, c).value;
    forall q | p < q < |s| ensures s[q] != c {
      assert s[q] == s[p + 1..][q - p - 1];
    }
    forall q | r < q < |s| ensures s[q] != c {
      assert s[q] == s[r + 1..][q - r - 1];
    }
  }

  /** The first occurrence is the one with none before it. */
  lemma FirstIndexOfIs(s: string, c: char, i: nat)
    requires i < |s| && s[i] == c && c !in s[..i]
    ensures FirstIndexOf(s, c) == Some(i)
  {
    var r := FirstIndexOf(s, c).value;
    forall q | 0 <= q < i ensures s[q] != c {
      assert s[q] == s[..i][q];
    }
    forall q | 0 <= q < r ensures s[q] != c {
      assert s[q] == s[..r][q];
    }
  }
}
