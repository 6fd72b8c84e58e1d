/**
 * Text helpers shared by the parsers and generators of openSAM: substring
 * search (Python `in`, C `strstr`, C++ `find`), Python `str.replace`,
 * Python `str.split()` and character classes.
 */
module Strings {
  import opened Wrappers

  /** pat occurs in s starting at index i. */
  predicate OccursAt(s: string, pat: string, i: nat)
  {
    i + |pat| <= |s| && s[i..i + |pat|] == pat
  }

  /** The first index at or after `from` where pat occurs in s. */
  function IndexFrom(s: string, pat: string, from: nat): (r: Option<nat>)
    decreases |s| - from
    ensures r.Some? ==> from <= r.value && OccursAt(s, pat, r.value)
    ensures r.Some? ==> forall j :: from <= j < r.value ==> !OccursAt(s, pat, j)
    ensures r.None? ==> forall j :: from <= j ==> !OccursAt(s, pat, j)
  {
    if from + |pat| > |s| then None
    else if s[from..from + |pat|] == pat then Some(from)
    else IndexFrom(s, pat, from + 1)
  }

  /** The first index where pat occurs in s (C `strstr`, C++ `find`). */
  function IndexOf(s: string, pat: string): (r: Option<nat>)
    ensures r.Some? ==> OccursAt(s, pat, r.value)
    ensures r.Some? ==> forall j :: 0 <= j < r.value ==> !OccursAt(s, pat, j)
    ensures r.None? ==> forall j :: 0 <= j ==> !OccursAt(s, pat, j)
  {
    IndexFrom(s, pat, 0)
  }

  /** Python `pat in s`. */
  predicate Contains(s: string, pat: string)
  {
    IndexOf(s, pat).Some?
  }

  /** Python `s.replace(pat, rep)`: every non-overlapping occurrence, left to right. */
  function ReplaceAll(s: string, pat: string, rep: string): (r: string)
    requires |pat| > 0
    decreases |s|
    ensures |pat| == |rep| ==> |r| == |s|
    ensures !Contains(s, pat) ==> r == s
  {
    if |s| < |pat| then s
    else if s[..|pat|] == pat then
      assert OccursAt(s, pat, 0);
      rep + ReplaceAll(s[|pat|..], pat, rep)
    else
      var rest := ReplaceAll(s[1..], pat, rep);
      assert !Contains(s, pat) ==> !Contains(s[1..], pat) by {
        if !Contains(s, pat) && Contains(s[1..], pat) {
          var j := IndexOf(s[1..], pat).value;
          assert s[1..][j..j + |pat|] == s[j + 1..j + 1 + |pat|];
          assert OccursAt(s, pat, j + 1);
        }
      }
      [s[0]] + rest
  }

  /** Whitespace as Python's `str.split()` sees it for ASCII text: the six C blanks and the separators 0x1C-0x1F. */
  predicate IsSpace(c: char)
  {
    c == ' ' || c == '\t' || c == '\n' || c == '\r' || c == '\U{B}' || c == '\U{C}' || '\U{1C}' <= c <= '\U{1F}'
  }

  predicate IsUpper(c: char) { 'A' <= c <= 'Z' }
  predicate IsLower(c: char) { 'a' <= c <= 'z' }
  predicate IsDigit(c: char) { '0' <= c <= '9' }
  /** C `isalpha` in the "C" locale. */
  predicate IsAlpha(c: char) { IsUpper(c) || IsLower(c) }

  /** The leading run of non-space characters of s. */
  function WordPrefix(s: string): (r: string)
    ensures r <= s
    ensures forall k :: 0 <= k < |r| ==> !IsSpace(r[k])
    ensures |r| < |s| ==> IsSpace(s[|r|])
  {
    if s == [] || IsSpace(s[0]) then [] else [s[0]] + WordPrefix(s[1..])
  }

  /** Python `s.split()`: the maximal runs of non-space characters, in order. */
  function Words(s: string): (r: seq<string>)
    decreases |s|
    ensures forall w :: w in r ==> |w| > 0 && forall k :: 0 <= k < |w| ==> !IsSpace(w[k])
  {
    if s == [] then []
    else if IsSpace(s[0]) then Words(s[1..])
    else
      var w := WordPrefix(s);
      [w] + Words(s[|w|..])
  }

  /** The text before the first occurrence of c (C `strchr` then NUL-patch, or CR truncation). */
  function CutAt(s: string, c: char): (r: string)
    ensures r <= s
    ensures c !in r
    ensures |r| < |s| ==> s[|r|] == c
  {
    if s == [] then []
    else if s[0] == c then []
    else [s[0]] + CutAt(s[1..], c)
  }

  /** The C string a buffer holds: up to the first NUL. */
  function CStr(buf: seq<char>): (s: string)
    ensures s <= buf && '\0' !in s
  {
    CutAt(buf, '\0')
  }

  /** The last byte of the buffer becomes NUL (LTAPI's `ZERO_TERM`, the byte areas of Traffic Global). */
  function ZeroTerm(buf: seq<char>): (r: seq<char>)
    ensures |r| == |buf|
    ensures buf != [] ==> r[|r| - 1] == '\0' && r[..|r| - 1] == buf[..|buf| - 1]
  {
    if buf == [] then [] else buf[..|buf| - 1] + ['\0']
  }

  /** s with every a replaced by b. */
  function MapChar(s: string, a: char, b: char): (r: string)
    ensures |r| == |s|
    ensures forall k :: 0 <= k < |s| ==> r[k] == (if s[k] == a then b else s[k])
  {
    if s == [] then [] else [if s[0] == a then b else s[0]] + MapChar(s[1..], a, b)
  }

  /** Python `" " * n`: n spaces, and the empty string for n <= 0. */
  function Spaces(n: int): (r: string)
    decreases if n < 0 then 0 else n
    ensures |r| == (if n < 0 then 0 else n)
    ensures forall k :: 0 <= k < |r| ==> r[k] == ' '
  {
    if n <= 0 then [] else [' '] + Spaces(n - 1)
  }

  /** How many elements of s equal x. */
  function Count<T(==)>(s: seq<T>, x: T): (r: nat)
    ensures r <= |s|
    ensures r == 0 <==> x !in s
  {
    if s == [] then 0 else (if s[0] == x then 1 else 0) + Count(s[1..], x)
  }

  lemma {:induction false} CountAppend<T>(a: seq<T>, b: seq<T>, x: T)
    ensures Count(a + b, x) == Count(a, x) + Count(b, x)
  {
    if a == [] {
      assert a + b == b;
    } else {
      assert (a + b)[1..] == a[1..] + b;
      CountAppend(a[1..], b, x);
    }
  }

  /** The decimal digit character of d. */
  function DigitChar(d: nat): (c: char)
    requires d < 10
    ensures IsDigit(c) && (c as int) - ('0' as int) == d
  {
    (('0' as int) + d) as char
  }

  /** Decimal notation of n without leading zeros (C `%d`, Python `str`). */
  function NatToDec(n: nat): (r: string)
    ensures |r| > 0
    ensures forall k :: 0 <= k < |r| ==> IsDigit(r[k])
    ensures |r| > 1 ==> r[0] != '0'
  {
    if n < 10 then [DigitChar(n)] else NatToDec(n / 10) + [DigitChar(n % 10)]
  }

  /** The value of a string of decimal digits (C `atoi` on well-formed input). */
  function DecValue(s: string): (r: nat)
    requires forall k :: 0 <= k < |s| ==> IsDigit(s[k])
  {
    if s == [] then 0
    else
      assert IsDigit(s[|s| - 1]);
      10 * DecValue(s[..|s| - 1]) + ((s[|s| - 1] as int) - ('0' as int))
  }

  /** Reading back the decimal notation of n gives n. */
  lemma {:induction false} DecRoundTrip(n: nat)
    ensures DecValue(NatToDec(n)) == n
  {
    if n >= 10 {
      var s := NatToDec(n);
      assert s[..|s| - 1] == NatToDec(n / 10);
      DecRoundTrip(n / 10);
    }
  }

  /** Decimal notation is injective. */
  lemma NatToDecInjective(m: nat, n: nat)
    requires NatToDec(m) == NatToDec(n)
    ensures m == n
  {
    DecRoundTrip(m);
    DecRoundTrip(n);
  }

  /** Any occurrence of pat in s puts pat's first character in s. */
  lemma ContainsFirstChar(s: string, pat: string)
    requires |pat| > 0 && Contains(s, pat)
    ensures pat[0] in s
  {
    var i := IndexOf(s, pat).value;
    assert s[i..i + |pat|][0] == s[i];
  }

  /** A string made only of spaces contributes no words in front of t. */
  lemma {:induction false} WordsSkipSpaces(sp: string, t: string)
    requires forall k :: 0 <= k < |sp| ==> IsSpace(sp[k])
    ensures Words(sp + t) == Words(t)
  {
    if sp != [] {
      assert IsSpace(sp[0]) && (sp + t)[0] == sp[0];
      assert (sp + t)[1..] == sp[1..] + t;
      WordsSkipSpaces(sp[1..], t);
      assert Words(sp + t) == Words(sp[1..] + t);
    } else {
      assert sp + t == t;
    }
  }

  /** A run of non-space characters stops at the first space after it. */
  lemma {:induction false} WordPrefixField(f: string, t: string)
    requires forall k :: 0 <= k < |f| ==> !IsSpace(f[k])
    requires |t| > 0 && IsSpace(t[0])
    ensures WordPrefix(f + t) == f
  {
    if f != [] {
      assert (f + t)[1..] == f[1..] + t;
      WordPrefixField(f[1..], t);
    }
  }

  /** A field followed by white space is the first word, and the words after it follow. */
  lemma WordsField(f: string, sp: string, t: string)
    requires |f| > 0 && forall k :: 0 <= k < |f| ==> !IsSpace(f[k])
    requires |sp| > 0 && forall k :: 0 <= k < |sp| ==> IsSpace(sp[k])
    ensures Words(f + (sp + t)) == [f] + Words(t)
  {
    WordPrefixField(f, sp + t);
    assert (f + (sp + t))[|f|..] == sp + t;
    WordsSkipSpaces(sp, t);
  }
}
