/**
 * The JavaScript string operations the core relies on: `toLowerCase` (ASCII letters only),
 * `includes`, `Number.prototype.toString()` on non-negative integers, `substring(start)`,
 * `slice(-k)` and `trim`.
 */
module Strings {

  predicate IsUpper(c: char) { 'A' <= c <= 'Z' }

  /** `toLowerCase` on one character, restricted to ASCII. */
  function LowerChar(c: char): (l: char)
    ensures !IsUpper(l)
    ensures IsUpper(c) ==> l as int == c as int + 32
    ensures !IsUpper(c) ==> l == c
  {
    if IsUpper(c) then (c as int + 32) as char else c
  }

  /** `String.prototype.toLowerCase` for ASCII text: no upper-case letter is left. */
  function Lower(s: string): (r: string)
    ensures |r| == |s|
    ensures forall i :: 0 <= i < |s| ==> r[i] == LowerChar(s[i])
    ensures forall i :: 0 <= i < |r| ==> !IsUpper(r[i])
  {
    if s == [] then [] else [LowerChar(s[0])] + Lower(s[1..])
  }

  /** Lower-casing twice is lower-casing once. */
  lemma LowerIdempotent(s: string)
    ensures Lower(Lower(s)) == Lower(s)
  {
  }

  /** `s.includes(pat)`: `pat` occurs somewhere in `s` as a contiguous block. */
  predicate Includes(s: string, pat: string)
  {
    pat <= s || (s != [] && Includes(s[1..], pat))
  }

  /** `pat` occurs in `s` starting at position `i`. */
  ghost predicate OccursAt(s: string, pat: string, i: int)
  {
    0 <= i && i + |pat| <= |s| && s[i..i + |pat|] == pat
  }

  /** `Includes` holds exactly when some position of `s` starts a copy of `pat`. */
  lemma {:induction false} IncludesAt(s: string, pat: string)
    ensures Includes(s, pat) <==> exists i :: OccursAt(s, pat, i)
  {
    if s != [] {
      IncludesAt(s[1..], pat);
      if pat <= s {
        assert OccursAt(s, pat, 0);
      } else if Includes(s[1..], pat) {
        var i :| OccursAt(s[1..], pat, i);
        assert s[i + 1..i + 1 + |pat|] == s[1..][i..i + |pat|];
        assert OccursAt(s, pat, i + 1);
      }
      if exists i :: OccursAt(s, pat, i) {
        var i :| OccursAt(s, pat, i);
        if i > 0 {
          assert s[1..][i - 1..i - 1 + |pat|] == s[i..i + |pat|];
          assert OccursAt(s[1..], pat, i - 1);
        } else {
          assert pat <= s;
        }
      }
    } else if pat == [] {
      assert OccursAt(s, pat, 0);
    }
  }

  /** A text that contains `pat + more` also contains `pat`. */
  lemma IncludesPrefixOf(s: string, pat: string, more: string)
    requires Includes(s, pat + more)
    ensures Includes(s, pat)
  {
    IncludesAt(s, pat + more);
    IncludesAt(s, pat);
    var i :| OccursAt(s, pat + more, i);
    assert s[i..i + |pat|] == (pat + more)[..|pat|];
    assert OccursAt(s, pat, i);
  }

  /** The decimal digit for `d`. */
  function DigitChar(d: nat): (c: char)
    requires d < 10
    ensures '0' <= c <= '9' && c as int - '0' as int == d
  {
    ('0' as int + d) as char
  }

  predicate IsDigit(c: char) { '0' <= c <= '9' }

  function DigitValue(c: char): nat
    requires IsDigit(c)
  {
    c as int - '0' as int
  }

  /** `n.toString()` for a non-negative integer: decimal digits without leading zeros. */
  function NatToString(n: nat): (r: string)
    ensures |r| >= 1
    ensures forall i :: 0 <= i < |r| ==> IsDigit(r[i])
    ensures r[0] == '0' ==> n == 0
    decreases n
  {
    if n < 10 then [DigitChar(n)] else NatToString(n / 10) + [DigitChar(n % 10)]
  }

  /** Reads a string of decimal digits back as a number. */
  function ParseDecimal(s: string): nat
    requires forall i :: 0 <= i < |s| ==> IsDigit(s[i])
  {
    if s == [] then 0
    else 10 * ParseDecimal(s[..|s| - 1]) + DigitValue(s[|s| - 1])
  }

  /** The decimal text of `n` reads back as `n`. */
  lemma {:induction false} ParseNatToString(n: nat)
    ensures ParseDecimal(NatToString(n)) == n
    decreases n
  {
    if n >= 10 {
      ParseNatToString(n / 10);
      var s := NatToString(n);
      assert s[..|s| - 1] == NatToString(n / 10);
    }
  }

  function Pow10(k: nat): nat
  {
    if k == 0 then 1 else 10 * Pow10(k - 1)
  }

  /** A number with `k` decimal digits has a `k`-character text. */
  lemma {:induction false} NatToStringLength(n: nat, k: nat)
    requires 1 <= k && Pow10(k - 1) <= n < Pow10(k)
    ensures |NatToString(n)| == k
    decreases k
  {
    if k > 1 {
      assert Pow10(k - 1) == 10 * Pow10(k - 2);
      NatToStringLength(n / 10, k - 1);
    } else {
      assert n < 10;
    }
  }

  /** `s.substring(start)` with one argument: the text from `start` on, or "" past the end. */
  function Substring(s: string, start: nat): (r: string)
    ensures |r| == if start <= |s| then |s| - start else 0
    ensures forall i :: 0 <= i < |r| ==> r[i] == s[start + i]
  {
    if start <= |s| then s[start..] else ""
  }

  /** `s.slice(-k)`: the last `k` characters, or all of `s` when it is shorter (`slice(-0)` is `slice(0)`). */
  function SliceLast(s: string, k: nat): (r: string)
    ensures |r| == if k == 0 || |s| <= k then |s| else k
    ensures s == s[..|s| - |r|] + r
  {
    if k == 0 || |s| <= k then s else s[|s| - k..]
  }

  /** A 13-character text loses its first 3 characters exactly when it keeps its last 10. */
  lemma SubstringThreeOfThirteen(s: string)
    requires |s| == 13
    ensures Substring(s, 3) == SliceLast(s, 10)
  {
  }

  /** JavaScript's WhiteSpace and LineTerminator characters, which `trim` removes. */
  predicate IsJsWhitespace(c: char)
  {
    c == '\t' || c == '\n' || c == '\U{000B}' || c == '\U{000C}' || c == '\r' || c == ' ' ||
    c == '\U{00A0}' || c == '\U{1680}' || ('\U{2000}' <= c <= '\U{200A}') ||
    c == '\U{2028}' || c == '\U{2029}' || c == '\U{202F}' || c == '\U{205F}' ||
    c == '\U{3000}' || c == '\U{FEFF}'
  }

  predicate AllWhitespace(s: string)
  {
    forall i :: 0 <= i < |s| ==> IsJsWhitespace(s[i])
  }

  /** Lower-casing neither creates nor removes whitespace, so a text is blank exactly when its lower-cased form is. */
  lemma LowerKeepsBlank(s: string)
    ensures AllWhitespace(Lower(s)) <==> AllWhitespace(s)
  {
    var l := Lower(s);
    forall i | 0 <= i < |s| ensures IsJsWhitespace(l[i]) <==> IsJsWhitespace(s[i]) {
      assert l[i] == LowerChar(s[i]);
    }
  }

  /** `trimStart`: the suffix of `s` that starts at its first non-whitespace character. */
  function TrimStart(s: string): (r: string)
    ensures |r| <= |s| && r == s[|s| - |r|..]
    ensures r == [] <==> AllWhitespace(s)
    ensures r != [] ==> !IsJsWhitespace(r[0])
  {
    if s != [] && IsJsWhitespace(s[0]) then
      var rest := TrimStart(s[1..]);
      assert AllWhitespace(s[1..]) ==> AllWhitespace(s) by {
        if AllWhitespace(s[1..]) {
          forall i | 0 <= i < |s| ensures IsJsWhitespace(s[i]) {
            if i > 0 { assert s[i] == s[1..][i - 1]; }
          }
        }
      }
      assert AllWhitespace(s) ==> AllWhitespace(s[1..]) by {
        if AllWhitespace(s) {
          forall i | 0 <= i < |s[1..]| ensures IsJsWhitespace(s[1..][i]) {
            assert s[1..][i] == s[i + 1];
          }
        }
      }
      assert s[1..][|s[1..]| - |rest|..] == s[|s| - |rest|..];
      rest
    else s
  }

  /** `trimEnd`: the prefix of `s` that ends at its last non-whitespace character. */
  function TrimEnd(s: string): (r: string)
    ensures |r| <= |s| && r == s[..|r|]
    ensures r == [] <==> AllWhitespace(s)
    ensures r != [] ==> !IsJsWhitespace(r[|r| - 1])
  {
    if s != [] && IsJsWhitespace(s[|s| - 1]) then
      var init := s[..|s| - 1];
      var rest := TrimEnd(init);
      assert AllWhitespace(init) ==> AllWhitespace(s) by {
        if AllWhitespace(init) {
          forall i | 0 <= i < |s| ensures IsJsWhitespace(s[i]) {
            if i < |s| - 1 { assert s[i] == init[i]; }
          }
        }
      }
      assert AllWhitespace(s) ==> AllWhitespace(init) by {
        if AllWhitespace(s) {
          forall i | 0 <= i < |init| ensures IsJsWhitespace(init[i]) {
            assert init[i] == s[i];
          }
        }
      }
      assert rest == s[..|rest|];
      rest
    else s
  }

  /**
   * `String.prototype.trim`. Its result is empty (so falsy) exactly when `s` consists of
   * whitespace only, and otherwise begins and ends with a non-whitespace character.
   */
  function Trim(s: string): (r: string)
    ensures r == [] <==> AllWhitespace(s)
    ensures r != [] ==> !IsJsWhitespace(r[0]) && !IsJsWhitespace(r[|r| - 1])
  {
    var start := TrimStart(s);
    var r := TrimEnd(start);
    assert r != [] ==> r[0] == start[0];
    r
  }
}
