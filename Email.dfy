/**
  The contact form's e-mail shape check, `isValidEmail`, which tests the
  anchored regular expression `^[^\s@]+@[^\s@]+\.[^\s@]+$`. It is a shape
  check only and does not follow RFC 5322 address syntax.
 */
module Email {
  import opened JsText

  /** One character of the class `[^\s@]`. */
  predicate IsAtomChar(c: char) {
    !IsWhitespace(c) && c != '@'
  }

  /** A run matched by `[^\s@]+`: one or more characters of that class. */
  predicate IsAtomRun(t: string) {
    |t| > 0 && forall k :: 0 <= k < |t| ==> IsAtomChar(t[k])
  }

  /** What the regular expression accepts, read off its four parts: `s` is a
      run, an '@' at index `i`, a run, a '.' at index `j`, and a final run. */
  ghost predicate MatchesPattern(s: string) {
    exists i, j :: 0 <= i < j < |s| && s[i] == '@' && s[j] == '.' &&
      IsAtomRun(s[..i]) && IsAtomRun(s[i + 1..j]) && IsAtomRun(s[j + 1..])
  }

  /** The index of the first `c` in `s`, or `|s|` when there is none. */
  function IndexOf(s: string, c: char): (r: nat)
    ensures r <= |s|
    ensures r < |s| ==> s[r] == c
    ensures forall k :: 0 <= k < r ==> s[k] != c
  {
    if |s| == 0 then 0
    else if s[0] == c then 0
    else 1 + IndexOf(s[1..], c)
  }

  /** `IndexOf` finds the first occurrence and nothing else. */
  lemma {:induction false} IndexOfFirst(s: string, c: char, k: nat)
    requires k <= |s| && (k < |s| ==> s[k] == c)
    requires forall m :: 0 <= m < k ==> s[m] != c
    ensures IndexOf(s, c) == k
  {
    if |s| > 0 && s[0] != c {
      IndexOfFirst(s[1..], c, k - 1);
    }
  }

  predicate NoWhitespace(s: string) {
    forall k :: 0 <= k < |s| ==> !IsWhitespace(s[k])
  }

  /** `isValidEmail`: no whitespace, an '@' with something before it and no
      second '@' after it, and after it a '.' with at least one character on
      each side. The shortest string it accepts has five characters, as in
      `a@b.c`. */
  predicate IsValidEmail(s: string)
    ensures IsValidEmail(s) ==> 5 <= |s|
  {
    var at := IndexOf(s, '@');
    NoWhitespace(s) && 0 < at < |s| && '@' !in s[at + 1..] &&
    exists j | at + 1 < j < |s| - 1 :: s[j] == '.'
  }

  /** `isValidEmail` accepts exactly the strings the regular expression
      matches. */
  lemma ValidIffMatchesPattern(s: string)
    ensures IsValidEmail(s) <==> MatchesPattern(s)
  {
    var at := IndexOf(s, '@');
    if IsValidEmail(s) {
      var j :| at + 1 < j < |s| - 1 && s[j] == '.';
      ShapeMatches(s, at, j);
    } else if MatchesPattern(s) {
      MatchHasShape(s);
    }
  }

  /** A slice of characters of the class `[^\s@]` is a run. */
  lemma SliceIsRun(s: string, lo: nat, hi: nat)
    requires lo < hi <= |s|
    requires forall k :: lo <= k < hi ==> IsAtomChar(s[k])
    ensures IsAtomRun(s[lo..hi])
  {
    forall k | 0 <= k < hi - lo ensures IsAtomChar(s[lo..hi][k]) {
      assert s[lo..hi][k] == s[lo + k];
    }
  }

  /** Every character of a run lies in the class `[^\s@]`. */
  lemma RunChars(s: string, lo: nat, hi: nat)
    requires lo <= hi <= |s|
    requires IsAtomRun(s[lo..hi])
    ensures forall k :: lo <= k < hi ==> IsAtomChar(s[k])
  {
    forall k | lo <= k < hi ensures IsAtomChar(s[k]) {
      assert s[k] == s[lo..hi][k - lo];
    }
  }

  lemma ShapeMatches(s: string, at: nat, j: nat)
    requires NoWhitespace(s) && 0 < at < j < |s| - 1
    requires s[at] == '@' && s[j] == '.' && at + 1 < j
    requires forall k :: 0 <= k < at ==> s[k] != '@'
    requires '@' !in s[at + 1..]
    ensures MatchesPattern(s)
  {
    forall k | at < k < |s| ensures s[k] != '@' {
      assert s[k] == s[at + 1..][k - at - 1];
    }
    SliceIsRun(s, 0, at);
    SliceIsRun(s, at + 1, j);
    SliceIsRun(s, j + 1, |s|);
    assert s[..at] == s[0..at];
    assert s[j + 1..] == s[j + 1..|s|];
  }

  lemma MatchHasShape(s: string)
    requires MatchesPattern(s)
    ensures IsValidEmail(s)
  {
    var i, j :| 0 <= i < j < |s| && s[i] == '@' && s[j] == '.' &&
      IsAtomRun(s[..i]) && IsAtomRun(s[i + 1..j]) && IsAtomRun(s[j + 1..]);
    assert s[..i] == s[0..i];
    assert s[j + 1..] == s[j + 1..|s|];
    RunChars(s, 0, i);
    RunChars(s, i + 1, j);
    RunChars(s, j + 1, |s|);
    PartsHaveShape(s, i, j);
  }

  lemma PartsHaveShape(s: string, i: nat, j: nat)
    requires 0 < i && i + 1 < j < |s| - 1 && s[i] == '@' && s[j] == '.'
    requires forall k :: 0 <= k < |s| && k != i && k != j ==> IsAtomChar(s[k])
    ensures IsValidEmail(s)
  {
    assert NoWhitespace(s);
    IndexOfFirst(s, '@', i);
    var domain := s[i + 1..];
    forall k | 0 <= k < |domain| ensures domain[k] != '@' {
      assert domain[k] == s[i + 1 + k];
    }
  }

  /** Three runs joined as `local@host.tld` always pass. */
  lemma AssembledAddressIsValid(local: string, host: string, tld: string)
    requires IsAtomRun(local) && IsAtomRun(host) && IsAtomRun(tld)
    ensures IsValidEmail(local + "@" + host + "." + tld)
  {
    var s := local + "@" + host + "." + tld;
    var i, j := |local|, |local| + 1 + |host|;
    assert s[..i] == local;
    assert s[i + 1..j] == host;
    assert s[j + 1..] == tld;
    assert s[i] == '@' && s[j] == '.';
    ValidIffMatchesPattern(s);
  }

  /** A non-empty run of lower-case letters is a run of `[^\s@]`. */
  lemma LettersAreRun(t: string)
    requires |t| > 0 && forall k :: 0 <= k < |t| ==> 'a' <= t[k] <= 'z'
    ensures IsAtomRun(t)
  {
  }

  /** The pattern accepts an ordinary address. */
  lemma AcceptsPlainAddress()
    ensures IsValidEmail("user@example.com")
  {
    LettersAreRun("user");
    LettersAreRun("example");
    LettersAreRun("com");
    AssembledAddressIsValid("user", "example", "com");
    assert "user" + "@" + "example" + "." + "com" == "user@example.com";
  }

  /** The pattern rejects a missing domain, a missing '@', an empty local
      part, and a leading space, which the form does not trim away. */
  lemma RejectsMalformed()
    ensures !IsValidEmail("user@")
    ensures !IsValidEmail("user.example.com")
    ensures !IsValidEmail("@example.com")
    ensures !IsValidEmail(" a@b.com")
  {
    IndexOfFirst("user@", '@', 4);
    IndexOfFirst("user.example.com", '@', 16);
    IndexOfFirst("@example.com", '@', 0);
    assert IsWhitespace(" a@b.com"[0]);
  }

  /** A valid address is never blank, so the form's separate emptiness test
      on the e-mail field never rejects a value the pattern accepts. */
  lemma ValidEmailIsNotBlank(s: string)
    requires IsValidEmail(s)
    ensures Trim(s) != []
  {
    TrimEmptyIffAllWhitespace(s);
    assert !IsWhitespace(s[0]);
  }
}
