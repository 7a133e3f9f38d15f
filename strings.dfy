/**
 * String operations shared by the browser scripts (JavaScript) and the
 * Python tools, written over `seq<char>`.
 *
 * Case mapping covers the Latin letters: ASCII, Latin-1 and Latin Extended-A,
 * which hold every Turkish capital, with 'İ' lowered to 'i' and a combining
 * dot above as both languages do.  Other scripts keep their case here.
 * Whitespace is the exact set each language uses: JavaScript's `trim` and
 * `\s`, and Python's `str.strip()`/`str.isspace()`.
 */
module Strings {

  import opened Common

  predicate IsAsciiUpper(c: char) { 'A' <= c <= 'Z' }
  predicate IsAsciiLower(c: char) { 'a' <= c <= 'z' }
  predicate IsAsciiDigit(c: char) { '0' <= c <= '9' }
  predicate IsAsciiLetter(c: char) { IsAsciiUpper(c) || IsAsciiLower(c) }

  /** The capitals of Latin Extended-A: most pair with the next code point, 'İ' and 'Ÿ' do not. */
  predicate IsExtendedUpper(c: char)
  {
    var n := c as int;
    ((0x100 <= n <= 0x12F || 0x132 <= n <= 0x137 || 0x14A <= n <= 0x177) && n % 2 == 0)
    || ((0x139 <= n <= 0x148 || 0x179 <= n <= 0x17E) && n % 2 == 1)
    || n == 0x130 || n == 0x178
  }

  /** A capital letter of the Latin ranges that lowercasing changes. */
  predicate IsUpper(c: char)
  {
    IsAsciiUpper(c) || ('\U{00C0}' <= c <= '\U{00DE}' && c != '\U{00D7}') || IsExtendedUpper(c)
  }

  /** The small letter of a capital ('i' for 'İ', its single-character form); any other character is kept. */
  function LowerChar(c: char): (r: char)
    ensures !IsUpper(r)
    ensures IsAsciiLetter(c) ==> IsAsciiLetter(r)
    ensures !IsUpper(c) ==> r == c
    ensures IsAsciiUpper(c) ==> IsAsciiLower(r) && r as int == c as int + 32
  {
    if IsAsciiUpper(c) || ('\U{00C0}' <= c <= '\U{00DE}' && c != '\U{00D7}') then (c as int + 32) as char
    else if c == '\U{0178}' then '\U{00FF}'
    else if c == '\U{0130}' then 'i'
    else if IsExtendedUpper(c) then (c as int + 1) as char
    else c
  }

  function UpperChar(c: char): (r: char)
    ensures !IsAsciiLower(r)
    ensures IsAsciiLetter(c) <==> IsAsciiLetter(r)
    ensures !IsAsciiLower(c) ==> r == c
  {
    if IsAsciiLower(c) then (c as int - 32) as char else c
  }

  /** The lowercase text of one character: 'İ' becomes 'i' and a combining dot above, other capitals their small letter. */
  function LowerOf(c: char): (r: string)
    ensures c == '\U{0130}' ==> r == "i\U{0307}"
    ensures c != '\U{0130}' ==> r == [LowerChar(c)]
    ensures forall k :: 0 <= k < |r| ==> !IsUpper(r[k])
  {
    if c == '\U{0130}' then "i\U{0307}" else [LowerChar(c)]
  }

  /** `toLowerCase()` / `lower()`: each character replaced by its lowercase text. */
  function Lower(s: string): (r: string)
    ensures |r| >= |s|
    ensures forall k :: 0 <= k < |r| ==> !IsUpper(r[k])
  {
    if |s| == 0 then ""
    else
      var head := LowerOf(s[0]);
      var rest := Lower(s[1..]);
      assert forall k :: |head| <= k < |head| + |rest| ==> (head + rest)[k] == rest[k - |head|];
      head + rest
  }

  /** Without an 'İ', lowering maps each character on its own and keeps the length. */
  lemma {:induction false} LowerPointwise(s: string)
    requires '\U{0130}' !in s
    ensures |Lower(s)| == |s| && forall i :: 0 <= i < |s| ==> Lower(s)[i] == LowerChar(s[i])
  {
    if |s| > 0 {
      LowerPointwise(s[1..]);
      assert Lower(s) == [LowerChar(s[0])] + Lower(s[1..]);
      assert forall i :: 1 <= i < |s| ==> s[i] == s[1..][i - 1];
    }
  }

  /** Lowering a concatenation lowers each part. */
  lemma {:induction false} LowerAppend(a: string, b: string)
    ensures Lower(a + b) == Lower(a) + Lower(b)
  {
    if |a| > 0 {
      var ab := a + b;
      assert ab[0] == a[0] && ab[1..] == a[1..] + b;
      LowerAppend(a[1..], b);
      assert Lower(ab) == LowerOf(a[0]) + Lower(a[1..] + b);
      assert Lower(a) == LowerOf(a[0]) + Lower(a[1..]);
    } else {
      assert a + b == b;
    }
  }

  /** A leading 'İ' lowers to 'i' and a combining dot above. */
  lemma LowerDottedCapital(rest: string)
    ensures Lower(['\U{0130}'] + rest) == ['i', '\U{0307}'] + Lower(rest)
  {
    var t := ['\U{0130}'] + rest;
    assert t[0] == '\U{0130}' && t[1..] == rest;
    assert Lower(t) == LowerOf(t[0]) + Lower(t[1..]);
  }

  /** A text without capitals is its own lowercase. */
  lemma {:induction false} LowerWithoutCapitals(s: string)
    requires forall k :: 0 <= k < |s| ==> !IsUpper(s[k])
    ensures Lower(s) == s
  {
    if |s| > 0 {
      LowerWithoutCapitals(s[1..]);
      assert [s[0]] + s[1..] == s;
    }
  }

  lemma LowerIdempotent(s: string)
    ensures Lower(Lower(s)) == Lower(s)
  {
    LowerWithoutCapitals(Lower(s));
  }

  /** `pat` occurs in `s` starting at position `j`. */
  predicate At(s: string, pat: string, j: nat)
  {
    j + |pat| <= |s| && s[j..j + |pat|] == pat
  }

  /** `s.includes(sub)` / Python's `sub in s`: `sub` occurs at some position. */
  predicate Contains(s: string, sub: string)
  {
    exists j: nat | j <= |s| :: At(s, sub, j)
  }

  /** Occurrences of `c` in `s` (`str.count` for a one-character pattern). */
  function CountChar(s: string, c: char): (r: nat)
    ensures r <= |s|
    ensures r == 0 <==> c !in s
  {
    if |s| == 0 then 0 else (if s[0] == c then 1 else 0) + CountChar(s[1..], c)
  }

  /** The first position at or after `k` where `pat` occurs. */
  function FindFrom(s: string, pat: string, k: nat): (r: Option<nat>)
    requires k <= |s|
    ensures r.Some? ==> k <= r.value && At(s, pat, r.value)
    ensures r.Some? ==> forall j: nat :: k <= j < r.value ==> !At(s, pat, j)
    ensures r.None? ==> forall j: nat :: k <= j ==> !At(s, pat, j)
    decreases |s| - k
  {
    if k + |pat| > |s| then None
    else if s[k..k + |pat|] == pat then Some(k)
    else FindFrom(s, pat, k + 1)
  }

  /** `s.indexOf(pat)` / `s.find(pat)`: the leftmost occurrence, if any. */
  function Find(s: string, pat: string): (r: Option<nat>)
    ensures r.None? <==> !Contains(s, pat)
    ensures r.Some? ==> At(s, pat, r.value)
    ensures r.Some? ==> forall j: nat :: j < r.value ==> !At(s, pat, j)
  {
    FindFrom(s, pat, 0)
  }

  /**
   * `s.split(sep)` for a non-empty separator, identical in JavaScript and
   * Python: cut at the leftmost occurrence, then continue after it.
   */
  function Split(s: string, sep: string): (r: seq<string>)
    requires |sep| > 0
    ensures |r| >= 1
    ensures !Contains(s, sep) ==> r == [s]
    decreases |s|
  {
    match Find(s, sep)
    case None => [s]
    case Some(i) => [s[..i]] + Split(s[i + |sep|..], sep)
  }

  /** `parts.join(sep)`. */
  function Join(parts: seq<string>, sep: string): string
  {
    if |parts| == 0 then ""
    else if |parts| == 1 then parts[0]
    else parts[0] + sep + Join(parts[1..], sep)
  }

  /** One step of `Split`: the piece before the leftmost separator, then the split of the rest. */
  lemma {:induction false} SplitStep(s: string, sep: string, i: nat)
    requires |sep| > 0 && Find(s, sep) == Some(i)
    ensures i + |sep| <= |s|
    ensures Split(s, sep) == [s[..i]] + Split(s[i + |sep|..], sep)
  {
    var r := Split(s, sep);
    match Find(s, sep)
    case Some(j) =>
      assert j == i;
      assert r == [s[..j]] + Split(s[j + |sep|..], sep);
  }

  /** One step of `Join` over at least two pieces. */
  lemma {:induction false} JoinStep(head: string, tail: seq<string>, sep: string)
    requires |tail| >= 1
    ensures Join([head] + tail, sep) == head + sep + Join(tail, sep)
  {
    assert ([head] + tail)[1..] == tail;
  }

  /** Splitting and re-joining on the same separator gives back the input. */
  lemma {:induction false} JoinSplit(s: string, sep: string)
    requires |sep| > 0
    ensures Join(Split(s, sep), sep) == s
    decreases |s|
  {
    match Find(s, sep)
    case None =>
    case Some(i) =>
      SplitStep(s, sep, i);
      var rest := s[i + |sep|..];
      var tail := Split(rest, sep);
      JoinSplit(rest, sep);
      JoinStep(s[..i], tail, sep);
      assert Join(Split(s, sep), sep) == s[..i] + sep + rest;
      CutAround(s, sep, i);
  }

  /** A string is the part before an occurrence, the occurrence and the part after it. */
  lemma CutAround(s: string, pat: string, i: nat)
    requires At(s, pat, i)
    ensures s == s[..i] + pat + s[i + |pat|..]
  {
    assert s[i..i + |pat|] == pat;
    assert s == s[..i] + s[i..i + |pat|] + s[i + |pat|..];
  }

  /** A one-character pattern occurs exactly when the character does. */
  lemma ContainsCharIff(s: string, c: char)
    ensures Contains(s, [c]) <==> c in s
  {
    if c in s {
      var k :| 0 <= k < |s| && s[k] == c;
      assert At(s, [c], k);
    }
    if Contains(s, [c]) {
      var k: nat :| k <= |s| && At(s, [c], k);
      assert s[k] == s[k..k + 1][0];
    }
  }

  /** No piece of a split on a one-character separator contains that character. */
  lemma {:induction false} SplitPiecesFree(s: string, c: char)
    ensures forall p :: p in Split(s, [c]) ==> c !in p
    decreases |s|
  {
    match Find(s, [c])
    case None =>
      ContainsCharIff(s, c);
    case Some(i) =>
      var rest := s[i + 1..];
      SplitPiecesFree(rest, c);
      assert Split(s, [c]) == [s[..i]] + Split(rest, [c]);
      forall k | 0 <= k < i ensures s[..i][k] != c {
        assert !At(s, [c], k);
        assert s[k..k + 1] == [s[k]];
      }
  }

  /** The first occurrence of a character absent from `s` in `s + [c] + rest` is right after `s`. */
  lemma FindAfterFree(s: string, c: char, rest: string)
    requires c !in s
    ensures Find(s + [c] + rest, [c]) == Some(|s|)
  {
    var t := s + [c] + rest;
    assert At(t, [c], |s|);
    forall j: nat | j < |s| ensures !At(t, [c], j) {
      assert t[j] == s[j];
      assert t[j..j + 1] == [t[j]];
    }
  }

  /** Joining pieces free of a one-character separator and splitting again gives the pieces back. */
  lemma {:induction false} SplitJoin(parts: seq<string>, c: char)
    requires |parts| >= 1
    requires forall k :: 0 <= k < |parts| ==> c !in parts[k]
    ensures Split(Join(parts, [c]), [c]) == parts
    decreases |parts|
  {
    if |parts| == 1 {
      ContainsCharIff(parts[0], c);
    } else {
      var rest := Join(parts[1..], [c]);
      assert Join(parts, [c]) == parts[0] + [c] + rest;
      FindAfterFree(parts[0], c, rest);
      var t := parts[0] + [c] + rest;
      SplitStep(t, [c], |parts[0]|);
      assert t[..|parts[0]|] == parts[0];
      assert t[|parts[0]| + 1..] == rest;
      SplitJoin(parts[1..], c);
      assert parts == [parts[0]] + parts[1..];
    }
  }

  /** The last piece of a split is a suffix of the input. */
  lemma {:induction false} LastPieceIsSuffix(s: string, sep: string)
    requires |sep| > 0
    ensures var last := Last(Split(s, sep)); |last| <= |s| && s[|s| - |last|..] == last
    decreases |s|
  {
    match Find(s, sep)
    case None =>
      assert Split(s, sep) == [s];
    case Some(i) =>
      SplitStep(s, sep, i);
      var rest := s[i + |sep|..];
      var tail := Split(rest, sep);
      LastPieceIsSuffix(rest, sep);
      LastOfLonger(s[..i], tail);
      SuffixOfRest(s, i + |sep|, Last(tail));
  }

  /** The last element of a sequence with something put in front is its own last element. */
  lemma LastOfLonger<T>(x: T, tail: seq<T>)
    requires |tail| > 0
    ensures Last([x] + tail) == Last(tail)
  {
  }

  /** A suffix of a suffix of `s` is a suffix of `s`. */
  lemma SuffixOfRest(s: string, d: nat, t: string)
    requires d <= |s| && |t| <= |s| - d && s[d..][|s| - d - |t|..] == t
    ensures |t| <= |s| && s[|s| - |t|..] == t
  {
    assert forall k :: 0 <= k < |t| ==> t[k] == s[d..][|s| - d - |t| + k] == s[|s| - |t| + k];
  }

  function Last<T>(s: seq<T>): T
    requires |s| > 0
  {
    s[|s| - 1]
  }

  /** The leftmost occurrence of `pat` in `s` is at `i`. */
  predicate FirstAt(s: string, pat: string, i: nat)
  {
    At(s, pat, i) && forall j: nat :: j < i ==> !At(s, pat, j)
  }

  /** JavaScript's `String.prototype.replace` with a string pattern: the first occurrence only. */
  function ReplaceFirst(s: string, pat: string, rep: string): (r: string)
    ensures !Contains(s, pat) ==> r == s
    ensures Contains(s, pat) ==> exists i: nat :: FirstAt(s, pat, i) && r == s[..i] + rep + s[i + |pat|..]
  {
    match Find(s, pat)
    case None => s
    case Some(i) =>
      assert FirstAt(s, pat, i);
      s[..i] + rep + s[i + |pat|..]
  }

  /** Python's `str.replace(old, new)` for a one-character pattern: every occurrence. */
  function ReplaceChar(s: string, c: char, rep: string): (r: string)
    ensures c !in rep ==> c !in r
    ensures c !in s ==> r == s
    ensures forall d :: d in r ==> d in s || d in rep
  {
    if |s| == 0 then ""
    else (if s[0] == c then rep else [s[0]]) + ReplaceChar(s[1..], c, rep)
  }

  /** The characters JavaScript's `String.prototype.trim` and the regex class `\s` treat as white space. */
  predicate IsJsSpace(c: char)
  {
    c == '\t' || c == '\n' || c == '\U{000B}' || c == '\U{000C}' || c == '\r' || c == ' '
    || c == '\U{00A0}' || c == '\U{1680}' || ('\U{2000}' <= c <= '\U{200A}')
    || c == '\U{2028}' || c == '\U{2029}' || c == '\U{202F}' || c == '\U{205F}'
    || c == '\U{3000}' || c == '\U{FEFF}'
  }

  /** The characters Python's `str.isspace()` accepts, which `str.strip()` removes. */
  predicate IsPySpace(c: char)
  {
    ('\t' <= c <= '\r') || ('\U{001C}' <= c <= '\U{001F}') || c == ' '
    || c == '\U{0085}' || c == '\U{00A0}' || c == '\U{1680}' || ('\U{2000}' <= c <= '\U{200A}')
    || c == '\U{2028}' || c == '\U{2029}' || c == '\U{202F}' || c == '\U{205F}' || c == '\U{3000}'
  }

  /** How many characters at the front of `s` are white space. */
  function LeadingSpaces(s: string, space: char -> bool): (n: nat)
    ensures n <= |s|
    ensures forall k :: 0 <= k < n ==> space(s[k])
    ensures n < |s| ==> !space(s[n])
  {
    if |s| > 0 && space(s[0]) then
      var m := LeadingSpaces(s[1..], space);
      assert forall k :: 1 <= k < m + 1 ==> s[k] == s[1..][k - 1];
      m + 1
    else 0
  }

  /** How many characters at the back of `s` are white space. */
  function TrailingSpaces(s: string, space: char -> bool): (n: nat)
    ensures n <= |s|
    ensures forall k :: |s| - n <= k < |s| ==> space(s[k])
    ensures n < |s| ==> !space(s[|s| - 1 - n])
  {
    if |s| > 0 && space(s[|s| - 1]) then
      var m := TrailingSpaces(s[..|s| - 1], space);
      assert forall k :: |s| - 1 - m <= k < |s| - 1 ==> s[k] == s[..|s| - 1][k];
      m + 1
    else 0
  }

  /** Every character of `t` is white space. */
  predicate AllSpace(t: string, space: char -> bool)
  {
    forall k :: 0 <= k < |t| ==> space(t[k])
  }

  /** `s` is `a` white-space characters, then `r`, then white space to the end. */
  predicate SpacedAt(s: string, r: string, a: nat, space: char -> bool)
  {
    a + |r| <= |s| && s[a..a + |r|] == r && AllSpace(s[..a], space) && AllSpace(s[a + |r|..], space)
  }

  /** `r` is `s` without its white-space ends: white space, then `r`, then white space, and `r` neither starts nor ends with white space. */
  predicate TrimmedOf(s: string, r: string, space: char -> bool)
  {
    (|r| > 0 ==> !space(r[0]) && !space(r[|r| - 1]))
    && exists a: nat | a <= |s| :: SpacedAt(s, r, a, space)
  }

  /** Removing the white space at both ends: what `trim()` and `strip()` do, each with its own set. */
  function TrimBy(s: string, space: char -> bool): (r: string)
    ensures |r| == 0 <==> AllSpace(s, space)
    ensures TrimmedOf(s, r, space)
  {
    var a := LeadingSpaces(s, space);
    var t := s[a..];
    var b := TrailingSpaces(t, space);
    var r := s[a..|s| - b];
    assert |r| > 0 ==> r[0] == t[0] && r[|r| - 1] == t[|t| - 1 - b];
    assert s[a..a + |r|] == r;
    var u := s[a + |r|..];
    assert AllSpace(u, space) by {
      forall k | 0 <= k < |u| ensures space(u[k]) {
        assert u[k] == t[|t| - b + k];
      }
    }
    assert SpacedAt(s, r, a, space);
    r
  }

  /** Where the kept text is not empty, it starts at the first character that is not white space. */
  lemma SpacedStart(s: string, r: string, a: nat, space: char -> bool)
    requires SpacedAt(s, r, a, space) && |r| > 0 && !space(r[0])
    ensures !space(s[a]) && forall k :: 0 <= k < a ==> space(s[k])
  {
    assert s[a] == s[a..a + |r|][0];
    forall k | 0 <= k < a ensures space(s[k]) {
      assert s[..a][k] == s[k];
    }
  }

  /** Where the kept text is not empty, it ends at the last character that is not white space. */
  lemma SpacedEnd(s: string, r: string, a: nat, space: char -> bool)
    requires SpacedAt(s, r, a, space) && |r| > 0 && !space(r[|r| - 1])
    ensures !space(s[a + |r| - 1]) && forall k :: a + |r| <= k < |s| ==> space(s[k])
  {
    assert s[a + |r| - 1] == s[a..a + |r|][|r| - 1];
    forall k | a + |r| <= k < |s| ensures space(s[k]) {
      assert s[a + |r|..][k - a - |r|] == s[k];
    }
  }

  /** Only one text is `s` without its white-space ends. */
  lemma TrimmedUnique(s: string, r1: string, r2: string, space: char -> bool)
    requires TrimmedOf(s, r1, space) && TrimmedOf(s, r2, space)
    ensures r1 == r2
  {
    var a1: nat :| a1 <= |s| && SpacedAt(s, r1, a1, space);
    var a2: nat :| a2 <= |s| && SpacedAt(s, r2, a2, space);
    if |r1| > 0 && |r2| > 0 {
      SpacedStart(s, r1, a1, space);
      SpacedStart(s, r2, a2, space);
      SpacedEnd(s, r1, a1, space);
      SpacedEnd(s, r2, a2, space);
      assert a1 == a2;
      assert a1 + |r1| == a2 + |r2|;
      assert r1 == s[a1..a1 + |r1|];
    } else if |r1| > 0 {
      SpacedStart(s, r1, a1, space);
      OnlySpace(s, a2, space);
    } else if |r2| > 0 {
      SpacedStart(s, r2, a2, space);
      OnlySpace(s, a1, space);
    }
  }

  /** White space up to `a` and from `a` on is white space throughout. */
  lemma OnlySpace(s: string, a: nat, space: char -> bool)
    requires a <= |s| && AllSpace(s[..a], space) && AllSpace(s[a..], space)
    ensures AllSpace(s, space)
  {
    forall k | 0 <= k < |s| ensures space(s[k]) {
      if k < a {
        assert s[..a][k] == s[k];
      } else {
        assert s[a..][k - a] == s[k];
      }
    }
  }

  /** Trimming a string whose ends are not white space leaves it as it is. */
  lemma TrimByNoSpaceEnds(s: string, space: char -> bool)
    requires |s| > 0 && !space(s[0]) && !space(s[|s| - 1])
    ensures TrimBy(s, space) == s
  {
    assert s[0..0 + |s|] == s && s[..0] == [] && s[0 + |s|..] == [];
    assert SpacedAt(s, s, 0, space);
    TrimmedUnique(s, TrimBy(s, space), s, space);
  }

  /** `s.trim()` in JavaScript. */
  function JsTrim(s: string): (r: string)
    ensures |r| == 0 <==> AllSpace(s, IsJsSpace)
    ensures TrimmedOf(s, r, IsJsSpace)
  {
    TrimBy(s, IsJsSpace)
  }

  /** `s.strip()` in Python. */
  function PyStrip(s: string): (r: string)
    ensures |r| == 0 <==> AllSpace(s, IsPySpace)
    ensures TrimmedOf(s, r, IsPySpace)
  {
    TrimBy(s, IsPySpace)
  }

  /** A non-negative integer written in decimal, as JavaScript's template strings and `String(n)` write it. */
  function NatToString(n: nat): (r: string)
    ensures |r| >= 1
    ensures forall i :: 0 <= i < |r| ==> IsAsciiDigit(r[i])
    decreases n
  {
    var d := ['0' + (n % 10) as char];
    if n < 10 then d else NatToString(n / 10) + d
  }

  /** The value of a string of decimal digits (`parseInt` on such a string). */
  function DecimalValue(s: string): nat
  {
    if |s| == 0 then 0
    else DecimalValue(s[..|s| - 1]) * 10 + ((s[|s| - 1] as int - '0' as int) % 10)
  }

  /** Reading back a written number gives the number: the decimal form is faithful. */
  lemma {:induction false} DecimalRoundTrip(n: nat)
    ensures DecimalValue(NatToString(n)) == n
    decreases n
  {
    var s := NatToString(n);
    if n >= 10 {
      DecimalRoundTrip(n / 10);
      assert s[..|s| - 1] == NatToString(n / 10);
    }
  }

  /** Distinct numbers are written differently. */
  lemma NatToStringInjective(a: nat, b: nat)
    requires NatToString(a) == NatToString(b)
    ensures a == b
  {
    DecimalRoundTrip(a);
    DecimalRoundTrip(b);
  }

  /** Only zero is written '0'. */
  lemma NatToStringNonZero(n: nat)
    requires n > 0
    ensures NatToString(n) != "0"
  {
    if NatToString(n) == "0" {
      assert NatToString(0) == "0";
      NatToStringInjective(n, 0);
    }
  }

  /** An integer in decimal with a leading '-' when negative. */
  function IntToString(n: int): (r: string)
    ensures |r| >= 1
    ensures r[0] == '-' || IsAsciiDigit(r[0])
    ensures forall k :: 0 < k < |r| ==> IsAsciiDigit(r[k])
    ensures IsAsciiDigit(r[|r| - 1])
    ensures n >= 0 ==> IsAsciiDigit(r[0]) && DecimalValue(r) == n
    ensures n < 0 ==> r[0] == '-' && DecimalValue(r[1..]) == -n
  {
    if n < 0 then
      DecimalRoundTrip(-n);
      assert ("-" + NatToString(-n))[1..] == NatToString(-n);
      "-" + NatToString(-n)
    else
      DecimalRoundTrip(n);
      NatToString(n)
  }
}
