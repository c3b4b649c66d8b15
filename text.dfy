/** The string operations the backend relies on (`lower`, `in`, `split`,
    `rsplit`, `strip`, `rstrip`, `join`, `str(int)`), stated over `seq<char>`. */
module Text {
  import opened Wrappers

  // ---------------------------------------------------------------------------
  // Characters
  // ---------------------------------------------------------------------------

  /** `c.lower()` for ASCII letters; every other character is left unchanged. */
  function LowerChar(c: char): char {
    if 'A' <= c <= 'Z' then (c as int + 32) as char else c
  }

  predicate IsAsciiLetter(c: char) {
    ('a' <= c <= 'z') || ('A' <= c <= 'Z')
  }

  predicate IsDigit(c: char) {
    '0' <= c <= '9'
  }

  /** `c.isalnum()`, restricted to ASCII. */
  predicate IsAlnum(c: char) {
    IsAsciiLetter(c) || IsDigit(c)
  }

  /** A regular-expression word character (`\w`), restricted to ASCII. */
  predicate IsWordChar(c: char) {
    IsAlnum(c) || c == '_'
  }

  /** `c.isspace()`: the characters Python's `str.strip()` removes. */
  predicate IsSpace(c: char) {
    var n := c as int;
    n == 32 || 9 <= n <= 13 || 28 <= n <= 31 || n == 0x85 || n == 0xA0 ||
    n == 0x1680 || 0x2000 <= n <= 0x200A || n == 0x2028 || n == 0x2029 ||
    n == 0x202F || n == 0x205F || n == 0x3000
  }

  // ---------------------------------------------------------------------------
  // Lower-casing
  // ---------------------------------------------------------------------------

  /** `s.lower()`, character by character. */
  function Lower(s: string): (r: string)
    ensures |r| == |s|
    ensures forall i :: 0 <= i < |s| ==> r[i] == LowerChar(s[i])
  {
    if s == [] then [] else [LowerChar(s[0])] + Lower(s[1..])
  }

  lemma {:induction false} LowerIdempotent(s: string)
    ensures Lower(Lower(s)) == Lower(s)
  {
    var l := Lower(s);
    var ll := Lower(l);
    assert |ll| == |l|;
    forall i | 0 <= i < |l| ensures ll[i] == l[i] {
      assert ll[i] == LowerChar(l[i]);
    }
  }

  // ---------------------------------------------------------------------------
  // Substrings
  // ---------------------------------------------------------------------------

  /** `sub` occurs in `s` starting at index `i`. */
  predicate OccursAt(s: string, sub: string, i: int) {
    0 <= i && i + |sub| <= |s| && s[i..i + |sub|] == sub
  }

  /** Python's `sub in s`. */
  predicate Contains(s: string, sub: string) {
    exists i | 0 <= i <= |s| - |sub| :: OccursAt(s, sub, i)
  }

  predicate IsPrefix(p: string, s: string) {
    |p| <= |s| && s[..|p|] == p
  }

  predicate IsSuffix(p: string, s: string) {
    |p| <= |s| && s[|s| - |p|..] == p
  }

  /** The first index at or after `k` where `sub` occurs. */
  function FindFrom(s: string, sub: string, k: nat): (r: Option<nat>)
    decreases |s| - k
    ensures r.Some? ==> k <= r.value && OccursAt(s, sub, r.value)
    ensures r.Some? ==> forall j :: k <= j < r.value ==> !OccursAt(s, sub, j)
    ensures r.None? ==> forall j :: k <= j ==> !OccursAt(s, sub, j)
  {
    if k + |sub| > |s| then None
    else if s[k..k + |sub|] == sub then Some(k)
    else FindFrom(s, sub, k + 1)
  }

  /** `s.find(sub)`, with `None` for -1. */
  function Find(s: string, sub: string): (r: Option<nat>)
    ensures r.Some? <==> Contains(s, sub)
    ensures r.Some? ==> OccursAt(s, sub, r.value) && forall j :: 0 <= j < r.value ==> !OccursAt(s, sub, j)
  {
    FindFrom(s, sub, 0)
  }

  /** Concatenation of sequences regroups freely. */
  lemma AppendAssoc<T>(a: seq<T>, b: seq<T>, c: seq<T>)
    ensures a + b + c == a + (b + c)
  {
  }

  lemma ContainsSelf(s: string)
    ensures Contains(s, s)
  {
    assert OccursAt(s, s, 0);
  }

  /** What occurs in `x` still occurs once something is appended to it. */
  lemma ContainsAppendRight(x: string, y: string, z: string)
    requires Contains(x, z)
    ensures Contains(x + y, z)
  {
    var i :| 0 <= i <= |x| - |z| && OccursAt(x, z, i);
    assert (x + y)[i..i + |z|] == x[i..i + |z|];
    assert OccursAt(x + y, z, i);
  }

  /** What occurs in `y` still occurs once something is put before it. */
  lemma ContainsPrependLeft(x: string, y: string, z: string)
    requires Contains(y, z)
    ensures Contains(x + y, z)
  {
    var i :| 0 <= i <= |y| - |z| && OccursAt(y, z, i);
    assert (x + y)[|x| + i..|x| + i + |z|] == y[i..i + |z|];
    assert OccursAt(x + y, z, |x| + i);
  }

  /** Where `a + b` occurs, `a` occurs. */
  lemma ContainsPrefixPart(s: string, a: string, b: string)
    requires Contains(s, a + b)
    ensures Contains(s, a)
  {
    var i :| 0 <= i <= |s| - |a + b| && OccursAt(s, a + b, i);
    assert s[i..i + |a|] == (a + b)[..|a|];
    assert OccursAt(s, a, i);
  }

  /** For a single character, `Contains` is membership. */
  lemma ContainsChar(s: string, c: char)
    ensures Contains(s, [c]) <==> c in s
  {
    if c in s {
      var i :| 0 <= i < |s| && s[i] == c;
      assert s[i..i + 1] == [c];
      assert OccursAt(s, [c], i);
    }
    if Contains(s, [c]) {
      var i :| 0 <= i <= |s| - 1 && OccursAt(s, [c], i);
      assert s[i] == s[i..i + 1][0];
    }
  }

  /** A prefix of `s` occurs in `s`. */
  lemma PrefixContained(p: string, s: string)
    requires IsPrefix(p, s)
    ensures Contains(s, p)
  {
    assert OccursAt(s, p, 0);
  }

  /** Every character of a substring is a character of the string. */
  lemma ContainedChars(s: string, sub: string)
    requires Contains(s, sub)
    ensures forall c :: c in sub ==> c in s
  {
    var i :| 0 <= i <= |s| - |sub| && OccursAt(s, sub, i);
    forall c | c in sub ensures c in s {
      var j :| 0 <= j < |sub| && sub[j] == c;
      assert s[i + j] == sub[j];
    }
  }

  /** `s.split(sep)[0]`: the text before the first occurrence of `sep`,
      or all of `s` when `sep` does not occur. */
  function Field0(s: string, sep: string): (r: string)
    requires |sep| > 0
    ensures IsPrefix(r, s) && !Contains(r, sep)
    ensures Contains(s, sep) ==> OccursAt(s, sep, |r|)
    ensures forall j :: 0 <= j < |r| ==> !OccursAt(s, sep, j)
    ensures !Contains(s, sep) ==> r == s
  {
    match Find(s, sep)
    case None => s
    case Some(i) =>
      var r := s[..i];
      assert forall j :: 0 <= j <= |r| - |sep| ==> !OccursAt(r, sep, j) by {
        forall j | 0 <= j <= |r| - |sep| ensures !OccursAt(r, sep, j) {
          assert r[j..j + |sep|] == s[j..j + |sep|];
          assert !OccursAt(s, sep, j);
        }
      }
      r
  }

  /** The text after the first occurrence of `sep`. */
  function After(s: string, sep: string): string
    requires Contains(s, sep)
  {
    s[Find(s, sep).value + |sep|..]
  }

  /** `s.split(sep)[1]`: the text between the first and the second occurrence
      of `sep` (to the end of `s` when there is no second occurrence). */
  function Field1(s: string, sep: string): (r: string)
    requires |sep| > 0 && Contains(s, sep)
    ensures IsPrefix(r, After(s, sep)) && !Contains(r, sep)
    ensures Contains(After(s, sep), sep) ==> OccursAt(After(s, sep), sep, |r|)
    ensures forall j :: 0 <= j < |r| ==> !OccursAt(After(s, sep), sep, j)
    ensures !Contains(After(s, sep), sep) ==> r == After(s, sep)
  {
    Field0(After(s, sep), sep)
  }

  /** Cutting at a single character: the field holds no `c` and stops at
      the first `c` or at the end. */
  lemma Field0Char(s: string, c: char)
    ensures c !in Field0(s, [c])
    ensures var r := Field0(s, [c]); |r| == |s| || s[|r|] == c
  {
    var r := Field0(s, [c]);
    ContainsChar(r, c);
    ContainsChar(s, c);
    if c in s {
      assert s[|r|..|r| + 1] == [c];
    }
  }

  /** `s.split(sep)[1].split(c)[0].split(d)[0]`: what follows the first `sep`,
      up to the first `c`, `d` or further `sep`, or to the end. */
  function SegmentAfter(s: string, sep: string, c: char, d: char): (r: string)
    requires |sep| > 0 && Contains(s, sep)
    ensures IsPrefix(r, After(s, sep))
    ensures forall j :: 0 <= j < |r| ==> r[j] != c && r[j] != d && !OccursAt(After(s, sep), sep, j)
    ensures var rest := After(s, sep);
      |r| == |rest| || rest[|r|] == c || rest[|r|] == d || OccursAt(rest, sep, |r|)
  {
    var rest := After(s, sep);
    var seg := Field1(s, sep);
    var a := Field0(seg, [c]);
    var r := Field0(a, [d]);
    Field0Char(seg, c);
    Field0Char(a, d);
    assert r == rest[..|r|] by {
      assert a == seg[..|a|] && seg == rest[..|seg|];
    }
    assert forall j :: 0 <= j < |r| ==> r[j] != c by {
      forall j | 0 <= j < |r| ensures r[j] != c {
        assert r[j] == a[j];
      }
    }
    assert |r| == |rest| || rest[|r|] == c || rest[|r|] == d || OccursAt(rest, sep, |r|) by {
      if |r| < |a| {
        assert rest[|r|] == a[|r|];
      } else if |a| < |seg| {
        assert rest[|r|] == seg[|a|];
      }
    }
    r
  }

  /** `sub` does not occur at `i` once one of its characters differs there. */
  lemma MismatchAt(s: string, sub: string, i: nat, k: nat)
    requires k < |sub| && i + k < |s| && s[i + k] != sub[k]
    ensures !OccursAt(s, sub, i)
  {
    if i + |sub| <= |s| {
      assert s[i..i + |sub|][k] != sub[k];
    }
  }

  /** `Find` is the first occurrence: any occurrence with none before it is the one found. */
  lemma FindFirst(s: string, sub: string, i: nat)
    requires OccursAt(s, sub, i)
    requires forall j :: 0 <= j < i ==> !OccursAt(s, sub, j)
    ensures Find(s, sub) == Some(i)
  {
    assert Contains(s, sub);
  }

  /** A prefix of the text after `sep` that stops where `SegmentAfter` says
      and not before is `SegmentAfter` itself. */
  lemma SegmentAfterUnique(s: string, sep: string, c: char, d: char, r: string)
    requires |sep| > 0 && Contains(s, sep)
    requires IsPrefix(r, After(s, sep))
    requires forall j :: 0 <= j < |r| ==> r[j] != c && r[j] != d && !OccursAt(After(s, sep), sep, j)
    requires var rest := After(s, sep);
      |r| == |rest| || rest[|r|] == c || rest[|r|] == d || OccursAt(rest, sep, |r|)
    ensures SegmentAfter(s, sep, c, d) == r
  {
    var rest := After(s, sep);
    var t := SegmentAfter(s, sep, c, d);
    if |t| < |r| {
      assert rest[|t|] == r[|t|];
    } else if |r| < |t| {
      assert false;
    }
    assert t == rest[..|t|] && r == rest[..|r|];
  }

  /** A string with no white space at either end is its own `strip()`. */
  lemma StripUnchanged(s: string)
    requires s == [] || (!IsSpace(s[0]) && !IsSpace(s[|s| - 1]))
    ensures Strip(s) == s
  {
  }

  /** The last index of character `c` in `s`. */
  function LastIndexOf(s: string, c: char): (r: Option<nat>)
    ensures r.Some? ==> r.value < |s| && s[r.value] == c && forall j :: r.value < j < |s| ==> s[j] != c
    ensures r.None? ==> forall j :: 0 <= j < |s| ==> s[j] != c
  {
    if s == [] then None
    else if s[|s| - 1] == c then Some(|s| - 1)
    else LastIndexOf(s[..|s| - 1], c)
  }

  /** `s.rsplit(c, 1)[1]`, defined when `c` occurs in `s`: the text after its last occurrence. */
  function AfterLast(s: string, c: char): (r: string)
    requires c in s
    ensures IsSuffix(r, s) && c !in r && |r| < |s| && s[|s| - |r| - 1] == c
  {
    assert LastIndexOf(s, c).Some? by {
      var k :| 0 <= k < |s| && s[k] == c;
    }
    s[LastIndexOf(s, c).value + 1..]
  }

  // ---------------------------------------------------------------------------
  // Stripping
  // ---------------------------------------------------------------------------

  function LStrip(s: string): (r: string)
    ensures IsSuffix(r, s)
    ensures r == [] || !IsSpace(r[0])
    ensures forall i :: 0 <= i < |s| - |r| ==> IsSpace(s[i])
  {
    if s != [] && IsSpace(s[0]) then LStrip(s[1..]) else s
  }

  function RStrip(s: string): (r: string)
    ensures IsPrefix(r, s)
    ensures r == [] || !IsSpace(r[|r| - 1])
    ensures forall i :: |r| <= i < |s| ==> IsSpace(s[i])
  {
    if s != [] && IsSpace(s[|s| - 1]) then RStrip(s[..|s| - 1]) else s
  }

  /** `s.strip()`: leading and trailing whitespace removed. */
  function Strip(s: string): (r: string)
    ensures |r| <= |s|
    ensures r == [] || (!IsSpace(r[0]) && !IsSpace(r[|r| - 1]))
    ensures Contains(s, r)
    ensures exists k :: (OccursAt(s, r, k) && (forall i :: 0 <= i < k ==> IsSpace(s[i])) &&
                         forall i :: k + |r| <= i < |s| ==> IsSpace(s[i]))
  {
    var l := LStrip(s);
    var r := RStrip(l);
    var k := |s| - |l|;
    assert OccursAt(s, r, k) by {
      assert s[k..k + |r|] == l[..|r|];
    }
    assert forall i :: k + |r| <= i < |s| ==> IsSpace(s[i]) by {
      forall i | k + |r| <= i < |s| ensures IsSpace(s[i]) {
        assert s[i] == l[i - k];
      }
    }
    r
  }

  /** `s.rstrip(c)`: every trailing `c` removed. */
  function RStripChar(s: string, c: char): (r: string)
    ensures IsPrefix(r, s)
    ensures r == [] || r[|r| - 1] != c
    ensures forall i :: |r| <= i < |s| ==> s[i] == c
  {
    if s != [] && s[|s| - 1] == c then RStripChar(s[..|s| - 1], c) else s
  }

  // ---------------------------------------------------------------------------
  // Joining and numbers
  // ---------------------------------------------------------------------------

  /** `sep.join(xs)`. */
  function Join(sep: string, xs: seq<string>): string {
    if xs == [] then ""
    else if |xs| == 1 then xs[0]
    else xs[0] + sep + Join(sep, xs[1..])
  }

  /** Every joined string occurs in the result. */
  lemma {:induction false} JoinContains(sep: string, xs: seq<string>, i: nat)
    requires i < |xs|
    ensures Contains(Join(sep, xs), xs[i])
  {
    if |xs| == 1 {
      ContainsSelf(xs[0]);
    } else if i == 0 {
      ContainsSelf(xs[0]);
      assert Join(sep, xs) == xs[0] + (sep + Join(sep, xs[1..]));
      ContainsAppendRight(xs[0], sep + Join(sep, xs[1..]), xs[0]);
    } else {
      JoinContains(sep, xs[1..], i - 1);
      ContainsPrependLeft(xs[0] + sep, Join(sep, xs[1..]), xs[i]);
    }
  }

  /** `s.split(c)` for a single-character separator: the fields between the
      occurrences of `c`, empty ones included. */
  function Split(s: string, c: char): (parts: seq<string>)
    ensures |parts| >= 1
    ensures forall i :: 0 <= i < |parts| ==> c !in parts[i]
  {
    if s == [] then [""]
    else
      var rest := Split(s[1..], c);
      if s[0] == c then [""] + rest else [[s[0]] + rest[0]] + rest[1..]
  }

  /** Joining the fields with the separator gives the string back. */
  lemma {:induction false} JoinSplit(s: string, c: char)
    ensures Join([c], Split(s, c)) == s
  {
    if s != [] {
      var rest := Split(s[1..], c);
      JoinSplit(s[1..], c);
      var parts := Split(s, c);
      if s[0] == c {
        assert parts[1..] == rest;
        assert s == [c] + s[1..];
      } else if |rest| == 1 {
        assert parts == [[s[0]] + rest[0]];
        assert s == [s[0]] + s[1..];
      } else {
        assert parts[1..] == rest[1..];
        assert Join([c], rest) == rest[0] + [c] + Join([c], rest[1..]);
        assert s == [s[0]] + s[1..];
      }
    }
  }

  function DigitChar(d: nat): (c: char)
    requires d < 10
    ensures IsDigit(c)
  {
    ('0' as int + d) as char
  }

  function DigitValue(c: char): nat
    requires IsDigit(c)
  {
    c as int - '0' as int
  }

  /** `str(n)` for a natural number: its decimal digits, without leading zeros. */
  function NatToString(n: nat): (r: string)
    ensures |r| > 0 && forall i :: 0 <= i < |r| ==> IsDigit(r[i])
    ensures r[0] == '0' ==> n == 0
  {
    if n < 10 then [DigitChar(n)] else NatToString(n / 10) + [DigitChar(n % 10)]
  }

  /** `str(i)` for any integer. */
  function IntToString(i: int): string {
    if i < 0 then "-" + NatToString(-i) else NatToString(i)
  }

  /** Reads a string of decimal digits back as a number (`int(s)`). */
  function ParseDigits(s: string): nat
    requires forall i :: 0 <= i < |s| ==> IsDigit(s[i])
  {
    if s == [] then 0 else ParseDigits(s[..|s| - 1]) * 10 + DigitValue(s[|s| - 1])
  }

  /** Printing a number and reading it back gives the number. */
  lemma {:induction false} ParseNatToString(n: nat)
    ensures ParseDigits(NatToString(n)) == n
  {
    if n >= 10 {
      var s := NatToString(n);
      assert s[..|s| - 1] == NatToString(n / 10);
      ParseNatToString(n / 10);
    }
  }
}
