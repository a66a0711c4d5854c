/** String operations the program takes from the JavaScript runtime:
    `String.prototype.trim`, `String.prototype.toLowerCase` on ASCII text,
    and the splitting facts behind colon-joined keys. */
module Text {

  /** WhiteSpace and LineTerminator code points as `trim()` strips them
      (ECMAScript: TAB, VT, FF, SP, NBSP, ZWNBSP, category Zs, LF, CR, LS, PS). */
  predicate IsJsWhitespace(c: char) {
    || c == '\t' || c == '\n' || c == '\U{000B}' || c == '\U{000C}' || c == '\r'
    || c == ' ' || c == '\U{00A0}' || c == '\U{1680}'
    || ('\U{2000}' <= c <= '\U{200A}')
    || c == '\U{2028}' || c == '\U{2029}' || c == '\U{202F}' || c == '\U{205F}'
    || c == '\U{3000}' || c == '\U{FEFF}'
  }

  /** Every character of `s` is whitespace (vacuously true of ""). */
  predicate AllWhitespace(s: string) {
    forall i :: 0 <= i < |s| ==> IsJsWhitespace(s[i])
  }

  /** Drops leading whitespace. */
  function TrimStart(s: string): (r: string)
    ensures |r| <= |s| && r == s[|s| - |r|..]
    ensures AllWhitespace(s[..|s| - |r|])
    ensures |r| > 0 ==> !IsJsWhitespace(r[0])
  {
    if |s| > 0 && IsJsWhitespace(s[0]) then
      var r := TrimStart(s[1..]);
      assert s[1..][..|s[1..]| - |r|] == s[1..|s| - |r|];
      r
    else s
  }

  /** Drops trailing whitespace. */
  function TrimEnd(s: string): (r: string)
    ensures |r| <= |s| && r == s[..|r|]
    ensures AllWhitespace(s[|r|..])
    ensures |r| > 0 ==> !IsJsWhitespace(r[|r| - 1])
  {
    if |s| > 0 && IsJsWhitespace(s[|s| - 1]) then
      var r := TrimEnd(s[..|s| - 1]);
      assert s[..|s| - 1][|r|..] == s[|r|..|s| - 1];
      r
    else s
  }

  /** `s.trim()`: `s` with a whitespace prefix and a whitespace suffix
      removed, neither starting nor ending with whitespace, and empty exactly
      when `s` is all whitespace. */
  function Trim(s: string): (r: string)
    ensures |r| <= |s|
    ensures exists i, j :: 0 <= i <= j <= |s| && r == s[i..j] && AllWhitespace(s[..i]) && AllWhitespace(s[j..])
    ensures |r| > 0 ==> !IsJsWhitespace(r[0]) && !IsJsWhitespace(r[|r| - 1])
    ensures |r| == 0 <==> AllWhitespace(s)
  {
    TrimEmpty(s);
    TrimSpan(s);
    TrimEnd(TrimStart(s))
  }

  /** The trimmed string is the span of `s` between the whitespace `TrimStart`
      drops and the whitespace `TrimEnd` then drops. */
  lemma {:induction false} TrimSpan(s: string)
    ensures exists i, j :: 0 <= i <= j <= |s| && TrimEnd(TrimStart(s)) == s[i..j] && AllWhitespace(s[..i]) && AllWhitespace(s[j..])
  {
    var t := TrimStart(s);
    var r := TrimEnd(t);
    var i := |s| - |t|;
    var j := i + |r|;
    SliceOfSuffix(s, i, |r|);
    assert AllWhitespace(s[j..]) by {
      assert t[|r|..] == s[j..];
    }
    assert r == s[i..j];
  }

  /** Slicing a suffix of `s` is slicing `s` further along. */
  lemma {:induction false} SliceOfSuffix(s: string, i: nat, n: nat)
    requires i + n <= |s|
    ensures s[i..][..n] == s[i..i + n] && s[i..][n..] == s[i + n..]
  {
  }

  /** Trimming both ends leaves nothing exactly when `s` is all whitespace. */
  lemma {:induction false} TrimEmpty(s: string)
    ensures |TrimEnd(TrimStart(s))| == 0 <==> AllWhitespace(s)
  {
    var t := TrimStart(s);
    var i := |s| - |t|;
    if |TrimEnd(t)| == 0 {
      assert AllWhitespace(t[0..]);
      assert AllWhitespace(s[..i]);
      forall k | 0 <= k < |s|
        ensures IsJsWhitespace(s[k])
      {
        assert s[k] == s[..i][k];
      }
    }
  }

  /** `s.trim()` is falsy: the string holds no non-whitespace character. */
  predicate IsBlank(s: string) {
    |Trim(s)| == 0
  }

  /** `toLowerCase` on one character: ASCII capitals move to lower case; every
      other character is left as it is (the labels lowered here are ASCII). */
  function LowerChar(c: char): char {
    if 'A' <= c <= 'Z' then (c as int + 32) as char else c
  }

  /** `s.toLowerCase()` character by character. */
  function Lower(s: string): (r: string)
    ensures |r| == |s|
    ensures forall i :: 0 <= i < |s| ==> r[i] == LowerChar(s[i])
  {
    seq(|s|, i requires 0 <= i < |s| => LowerChar(s[i]))
  }

  /** Number of occurrences of `c` in `s`. */
  function Count(c: char, s: string): (n: nat)
    ensures n <= |s|
    ensures n == 0 <==> c !in s
  {
    if |s| == 0 then 0
    else Count(c, s[..|s| - 1]) + (if s[|s| - 1] == c then 1 else 0)
  }

  lemma {:induction false} CountAppend(c: char, a: string, b: string)
    ensures Count(c, a + b) == Count(c, a) + Count(c, b)
    decreases |b|
  {
    if |b| == 0 {
      assert a + b == a;
    } else {
      assert (a + b)[..|a + b| - 1] == a + b[..|b| - 1];
      CountAppend(c, a, b[..|b| - 1]);
    }
  }

  /** A separator that occurs in neither left part splits a joined string
      uniquely: `x + sep + y == x' + sep + y'` determines both parts. */
  lemma {:induction false} SplitAtSeparator(sep: char, x: string, y: string, x': string, y': string)
    requires sep !in x && sep !in x'
    requires x + [sep] + y == x' + [sep] + y'
    ensures x == x' && y == y'
  {
    var j := x + [sep] + y;
    assert j[|x|] == sep;
    assert j[|x'|] == sep;
    assert x == j[..|x|] == x';
    assert y == j[|x| + 1..] == y';
  }
}
