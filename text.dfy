/** String helpers standing in for the Python string methods the assistant uses:
    `lower()`, `capitalize()`, `split()`, `replace()`, the `in` substring test and `str()`
    of an integer. Case mapping covers ASCII letters only. */
module Text {

  predicate IsUpper(c: char) { 'A' <= c <= 'Z' }

  predicate IsLowerLetter(c: char) { 'a' <= c <= 'z' }

  function LowerChar(c: char): char
  {
    if IsUpper(c) then (c as int + 32) as char else c
  }

  function UpperChar(c: char): char
  {
    if IsLowerLetter(c) then (c as int - 32) as char else c
  }

  /** `s.lower()`. */
  function Lower(s: string): (r: string)
    ensures |r| == |s|
    ensures forall i :: 0 <= i < |s| ==> r[i] == LowerChar(s[i])
  {
    if s == [] then [] else [LowerChar(s[0])] + Lower(s[1..])
  }

  /** Lower-casing leaves a string without upper-case letters as it is. */
  lemma LowerWithoutUpper(s: string)
    requires forall i :: 0 <= i < |s| ==> !IsUpper(s[i])
    ensures Lower(s) == s
  {
  }

  /** `s.capitalize()`: the first character upper-cased, the rest lower-cased. */
  function Capitalize(s: string): string
  {
    if s == [] then [] else [UpperChar(s[0])] + Lower(s[1..])
  }

  predicate StartsWith(s: string, prefix: string)
  {
    |prefix| <= |s| && s[..|prefix|] == prefix
  }

  /** Python's `part in s`. */
  predicate Contains(s: string, part: string)
    decreases |s|
  {
    StartsWith(s, part) || (|s| > 0 && Contains(s[1..], part))
  }

  /** An occurrence at position `i` is an occurrence. */
  lemma {:induction false} ContainsAt(s: string, part: string, i: nat)
    requires i <= |s| && StartsWith(s[i..], part)
    ensures Contains(s, part)
    decreases i
  {
    if i > 0 {
      assert s[1..][i - 1..] == s[i..];
      ContainsAt(s[1..], part, i - 1);
    }
  }

  /** Every character of an occurring part occurs in the string. */
  lemma {:induction false} ContainsChar(s: string, part: string, c: char)
    requires Contains(s, part) && c in part
    ensures c in s
    decreases |s|
  {
    if StartsWith(s, part) {
      var k :| 0 <= k < |part| && part[k] == c;
      assert s[k] == c;
    } else {
      ContainsChar(s[1..], part, c);
    }
  }

  /** A part holding a character the string lacks does not occur in it. */
  lemma AbsentChar(s: string, part: string, c: char)
    requires c in part && forall i :: 0 <= i < |s| ==> s[i] != c
    ensures !Contains(s, part)
  {
    if Contains(s, part) {
      ContainsChar(s, part, c);
    }
  }

  /** `any(w in s for w in words)`. */
  predicate ContainsAny(s: string, words: seq<string>)
  {
    |words| > 0 && (Contains(s, words[0]) || ContainsAny(s, words[1..]))
  }

  lemma {:induction false} ContainsAnyIff(s: string, words: seq<string>)
    ensures ContainsAny(s, words) <==> exists i :: 0 <= i < |words| && Contains(s, words[i])
  {
    if |words| > 0 {
      ContainsAnyIff(s, words[1..]);
      if Contains(s, words[0]) {
      } else if exists i :: 0 <= i < |words| && Contains(s, words[i]) {
        var i :| 0 <= i < |words| && Contains(s, words[i]);
        assert words[1..][i - 1] == words[i];
      }
    }
  }

  /** A string that contains `p + q` contains `p`. */
  lemma {:induction false} ContainsPrefix(s: string, p: string, q: string)
    requires Contains(s, p + q)
    ensures Contains(s, p)
    decreases |s|
  {
    if StartsWith(s, p + q) {
      assert s[..|p|] == s[..|p + q|][..|p|];
      assert (p + q)[..|p|] == p;
    } else {
      ContainsPrefix(s[1..], p, q);
    }
  }

  /** The characters Python's `str.isspace()` accepts (and `\s` in a `str` regex matches). */
  predicate IsSpace(c: char)
  {
    var n := c as int;
    || 9 <= n <= 13 || 28 <= n <= 32 || n == 0x85 || n == 0xA0 || n == 0x1680
    || 0x2000 <= n <= 0x200A || n == 0x2028 || n == 0x2029 || n == 0x202F
    || n == 0x205F || n == 0x3000
  }

  /** The length of the run of non-space characters at the start of `s`. */
  function WordEnd(s: string): (n: nat)
    ensures n <= |s|
    ensures s != [] && !IsSpace(s[0]) ==> n >= 1
  {
    if s == [] || IsSpace(s[0]) then 0 else 1 + WordEnd(s[1..])
  }

  /** The run `WordEnd` measures holds no whitespace and ends at whitespace or at the end
      of the string. */
  lemma {:induction false} WordEndIsFirstSpace(s: string)
    ensures forall i :: 0 <= i < WordEnd(s) ==> !IsSpace(s[i])
    ensures WordEnd(s) < |s| ==> IsSpace(s[WordEnd(s)])
    decreases |s|
  {
    if s != [] && !IsSpace(s[0]) {
      WordEndIsFirstSpace(s[1..]);
      assert forall i :: 1 <= i < |s| ==> s[i] == s[1..][i - 1];
    }
  }

  /** `s.split()`: the maximal runs of non-space characters, in order. */
  function SplitWords(s: string): seq<string>
    decreases |s|
  {
    if s == [] then []
    else if IsSpace(s[0]) then SplitWords(s[1..])
    else
      var n := WordEnd(s);
      [s[..n]] + SplitWords(s[n..])
  }

  /** Every word `split()` yields is non-empty and has no whitespace. */
  lemma {:induction false} SplitWordsAreWords(s: string)
    ensures forall w :: w in SplitWords(s) ==> |w| > 0 && forall c :: c in w ==> !IsSpace(c)
    decreases |s|
  {
    if s != [] {
      if IsSpace(s[0]) {
        SplitWordsAreWords(s[1..]);
      } else {
        WordEndIsFirstSpace(s);
        SplitWordsAreWords(s[WordEnd(s)..]);
      }
    }
  }

  /** The first word of `a + x` is the first word of `a`, unless `a` has no whitespace,
      in which case it runs on into `x`. */
  lemma {:induction false} WordEndAppend(a: string, x: string)
    ensures WordEnd(a + x) == if WordEnd(a) < |a| then WordEnd(a) else |a| + WordEnd(x)
    decreases |a|
  {
    if a == [] {
      assert a + x == x;
    } else {
      assert (a + x)[0] == a[0] && (a + x)[1..] == a[1..] + x;
      if !IsSpace(a[0]) {
        WordEndAppend(a[1..], x);
      }
    }
  }

  /** A non-empty string without whitespace splits into itself. */
  lemma SplitWordsOfWord(w: string)
    requires |w| > 0 && forall i :: 0 <= i < |w| ==> !IsSpace(w[i])
    ensures SplitWords(w) == [w]
  {
    WordEndAppend(w, []);
    assert w + [] == w;
  }

  /** One step of `split()` on a string that starts with a word. */
  lemma SplitWordsWord(s: string, n: nat)
    requires s != [] && !IsSpace(s[0]) && n == WordEnd(s)
    ensures SplitWords(s) == [s[..n]] + SplitWords(s[n..])
  {
  }

  /** One step of `split()` on a string that starts with whitespace. */
  lemma SplitWordsSpace(s: string)
    requires s != [] && IsSpace(s[0])
    ensures SplitWords(s) == SplitWords(s[1..])
  {
  }

  /** Splitting at a whitespace character splits the two sides independently: the words
      of `a + [c] + b` are the words of `a` followed by the words of `b`. */
  lemma SplitAtSpace(a: string, c: char, b: string)
    requires IsSpace(c)
    ensures SplitWords(a + [c] + b) == SplitWords(a) + SplitWords(b)
  {
    var x := [c] + b;
    assert a + [c] + b == a + x && x[0] == c && x[1..] == b;
    SplitBeforeSpace(a, x);
    SplitWordsSpace(x);
  }

  /** The words of `a + x`, where `x` starts with whitespace, are the words of `a`
      followed by the words of `x`. */
  lemma {:induction false} SplitBeforeSpace(a: string, x: string)
    requires x != [] && IsSpace(x[0])
    ensures SplitWords(a + x) == SplitWords(a) + SplitWords(x)
    decreases |a|
  {
    if a == [] {
      assert a + x == x;
    } else if IsSpace(a[0]) {
      assert (a + x)[0] == a[0] && (a + x)[1..] == a[1..] + x;
      SplitWordsSpace(a + x);
      SplitWordsSpace(a);
      SplitBeforeSpace(a[1..], x);
    } else {
      var m := WordEnd(a);
      WordEndAppend(a, x);
      SliceAppend(a, x, m);
      assert (a + x)[0] == a[0];
      SplitWordsWord(a + x, m);
      SplitWordsWord(a, m);
      SplitBeforeSpace(a[m..], x);
    }
  }

  /** Slicing `a + x` at a point inside `a`. */
  lemma SliceAppend(a: string, x: string, m: nat)
    requires m <= |a|
    ensures (a + x)[..m] == a[..m] && (a + x)[m..] == a[m..] + x
  {
  }

  /** `s.replace(pattern, replacement)`: every non-overlapping occurrence, scanning left to right. */
  function ReplaceAll(s: string, pattern: string, replacement: string): string
    requires |pattern| > 0
    decreases |s|
  {
    if |s| < |pattern| then s
    else if s[..|pattern|] == pattern then replacement + ReplaceAll(s[|pattern|..], pattern, replacement)
    else [s[0]] + ReplaceAll(s[1..], pattern, replacement)
  }

  /** A pattern whose first character does not occur in `s` is never replaced. */
  lemma {:induction false} ReplaceAbsent(s: string, pattern: string, replacement: string)
    requires |pattern| > 0 && pattern[0] !in s
    ensures ReplaceAll(s, pattern, replacement) == s
    decreases |s|
  {
    if |s| >= |pattern| {
      assert s[0] != pattern[0];
      assert s[..|pattern|][0] == s[0];
      assert pattern[0] !in s[1..];
      ReplaceAbsent(s[1..], pattern, replacement);
      assert [s[0]] + s[1..] == s;
    }
  }

  function DigitChar(d: nat): char
    requires d < 10
  {
    ('0' as int + d) as char
  }

  function NatToString(n: nat): string
  {
    if n < 10 then [DigitChar(n)] else NatToString(n / 10) + [DigitChar(n % 10)]
  }

  /** `str(i)` for an integer. */
  function IntToString(i: int): string
  {
    if i < 0 then "-" + NatToString(-i) else NatToString(i)
  }
}
