/**
  The two pieces of the JavaScript string library the page's form code relies
  on: the regular-expression class `\s` and `String.prototype.trim`.
  In ECMAScript both are defined by the same set of code points, WhiteSpace
  together with LineTerminator, so one predicate serves both.
 */
module JsText {

  /** The ECMAScript `\s` class: TAB, VT, FF, SP, NBSP, ZWNBSP, every other
      space separator of Unicode category Zs, and the four line terminators
      LF, CR, LS and PS. TAB, LF, VT, FF and CR are the code points 9 to 13. */
  predicate IsWhitespace(c: char) {
    if c < '\U{00A0}' then
      c == ' ' || '\t' <= c <= '\r'
    else
      c == '\U{00A0}' || c == '\U{1680}' || '\U{2000}' <= c <= '\U{200A}' ||
      c == '\U{2028}' || c == '\U{2029}' || c == '\U{202F}' || c == '\U{205F}' ||
      c == '\U{3000}' || c == '\U{FEFF}'
  }

  predicate AllWhitespace(s: string) {
    forall k :: 0 <= k < |s| ==> IsWhitespace(s[k])
  }

  /** `s` with its leading whitespace removed. */
  function TrimStart(s: string): string {
    if |s| > 0 && IsWhitespace(s[0]) then TrimStart(s[1..]) else s
  }

  /** `s` with its trailing whitespace removed. */
  function TrimEnd(s: string): string {
    if |s| > 0 && IsWhitespace(s[|s| - 1]) then TrimEnd(s[..|s| - 1]) else s
  }

  /** What `TrimStart` removes is a prefix of whitespace, and what it keeps
      does not start with whitespace. */
  lemma {:induction false} TrimStartCuts(s: string)
    ensures var r := TrimStart(s);
      |r| <= |s| && r == s[|s| - |r|..] && AllWhitespace(s[..|s| - |r|]) &&
      (r == [] || !IsWhitespace(r[0]))
  {
    if |s| > 0 && IsWhitespace(s[0]) {
      TrimStartCuts(s[1..]);
      var r := TrimStart(s[1..]);
      assert s[..|s| - |r|] == [s[0]] + s[1..][..|s| - 1 - |r|];
    }
  }

  /** What `TrimEnd` removes is a suffix of whitespace, and what it keeps
      does not end with whitespace. */
  lemma {:induction false} TrimEndCuts(s: string)
    ensures var r := TrimEnd(s);
      |r| <= |s| && r == s[..|r|] && AllWhitespace(s[|r|..]) &&
      (r == [] || !IsWhitespace(r[|r| - 1]))
  {
    if |s| > 0 && IsWhitespace(s[|s| - 1]) {
      TrimEndCuts(s[..|s| - 1]);
      var r := TrimEnd(s[..|s| - 1]);
      assert s[|r|..] == s[..|s| - 1][|r|..] + [s[|s| - 1]];
    }
  }

  /** `String.prototype.trim`: whitespace stripped from both ends. The
      result is no longer than `s` and neither starts nor ends with
      whitespace; `TrimCuts` says where it was cut. */
  function Trim(s: string): (r: string)
    ensures |r| <= |s|
    ensures r == [] || (!IsWhitespace(r[0]) && !IsWhitespace(r[|r| - 1]))
  {
    TrimStartCuts(s);
    TrimEndCuts(TrimStart(s));
    TrimEnd(TrimStart(s))
  }

  /** Where `trim` cuts `s`: it keeps `s[lo..hi]`, everything before `lo` and
      from `hi` on is whitespace, and the part kept is empty or starts and
      ends with a character that is not whitespace. */
  lemma TrimCuts(s: string) returns (lo: nat, hi: nat)
    ensures lo <= hi <= |s| && Trim(s) == s[lo..hi]
    ensures AllWhitespace(s[..lo]) && AllWhitespace(s[hi..])
    ensures lo == hi || (!IsWhitespace(s[lo]) && !IsWhitespace(s[hi - 1]))
  {
    var t := TrimStart(s);
    var r := TrimEnd(t);
    TrimStartCuts(s);
    TrimEndCuts(t);
    lo, hi := |s| - |t|, |s| - |t| + |r|;
    assert s[hi..] == t[|r|..];
    assert r != [] ==> s[lo] == r[0] && s[hi - 1] == r[|r| - 1];
  }

  /** A field is blank for the form exactly when it holds only whitespace. */
  lemma TrimEmptyIffAllWhitespace(s: string)
    ensures Trim(s) == [] <==> AllWhitespace(s)
  {
    var lo, hi := TrimCuts(s);
    if lo == hi {
      forall k | 0 <= k < |s| ensures IsWhitespace(s[k]) {
        if k < lo {
          assert s[k] == s[..lo][k];
        } else {
          assert s[k] == s[hi..][k - hi];
        }
      }
    } else {
      assert !IsWhitespace(s[lo]);
    }
  }
}
