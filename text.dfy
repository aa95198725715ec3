/**
 * String operations of the Python standard library that the client relies on,
 * written out for the cases it uses: `str.find`, `str.rfind`, `str.lower` (ASCII),
 * `str.endswith`, integer formatting, and the POSIX forms of `os.path.basename`,
 * `os.path.join` and `pathlib.PurePath.stem`.
 */
module Text {

  /** Index of the first occurrence of `c` in `s`, or -1 (Python's `str.find`). */
  function Find(s: string, c: char): (i: int)
    ensures -1 <= i < |s|
    ensures i >= 0 ==> s[i] == c && c !in s[..i]
    ensures i == -1 <==> c !in s
    decreases |s|
  {
    if s == [] then -1
    else if s[0] == c then 0
    else
      var j := Find(s[1..], c);
      assert s == [s[0]] + s[1..];
      if j < 0 then -1
      else
        assert s[..j + 1] == [s[0]] + s[1..][..j];
        j + 1
  }

  /** Index of the last occurrence of `c` in `s`, or -1 (Python's `str.rfind`). */
  function RFind(s: string, c: char): (i: int)
    ensures -1 <= i < |s|
    ensures i >= 0 ==> s[i] == c && c !in s[i + 1..]
    ensures i == -1 <==> c !in s
    decreases |s|
  {
    if s == [] then -1
    else if s[|s| - 1] == c then |s| - 1
    else
      var init := s[..|s| - 1];
      var j := RFind(init, c);
      assert s == init + [s[|s| - 1]];
      if j >= 0 then
        assert s[j + 1..] == init[j + 1..] + [s[|s| - 1]];
        j
      else j
  }

  predicate EndsWith(s: string, suffix: string) {
    |suffix| <= |s| && s[|s| - |suffix|..] == suffix
  }

  function LowerChar(c: char): char {
    if 'A' <= c <= 'Z' then (c as int + 32) as char else c
  }

  /** `str.lower()` restricted to ASCII letters: each capital becomes its small letter, and nothing else changes. */
  function ToLower(s: string): (r: string)
    ensures |r| == |s|
    ensures forall i :: 0 <= i < |r| ==> !('A' <= r[i] <= 'Z')
    ensures forall i :: 0 <= i < |s| && 'A' <= s[i] <= 'Z' ==> r[i] as int == s[i] as int + 32
    ensures forall i :: 0 <= i < |s| && !('A' <= s[i] <= 'Z') ==> r[i] == s[i]
  {
    seq(|s|, i requires 0 <= i < |s| => LowerChar(s[i]))
  }

  predicate IsDigit(c: char) {
    '0' <= c <= '9'
  }

  predicate AllDigits(s: string) {
    forall i :: 0 <= i < |s| ==> IsDigit(s[i])
  }

  function DigitChar(d: nat): char
    requires d < 10
  {
    ('0' as int + d) as char
  }

  /** Decimal digits of `n`, most significant first, as `str(n)` gives them. */
  function NatToString(n: nat): (s: string)
    ensures |s| > 0 && AllDigits(s)
    ensures s[0] == '0' ==> n == 0
    ensures |s| == 1 || s[0] != '0'
  {
    if n < 10 then [DigitChar(n)]
    else NatToString(n / 10) + [DigitChar(n % 10)]
  }

  /** Python's `str(n)` / `f"{n}"` for an integer: a minus sign exactly for negatives, then digits. */
  function IntToString(n: int): (s: string)
    ensures |s| > 0
    ensures s[0] == '-' <==> n < 0
    ensures n >= 0 ==> AllDigits(s)
    ensures n < 0 ==> |s| > 1 && AllDigits(s[1..])
    ensures n >= 0 ==> |s| == 1 || s[0] != '0'
    ensures n < 0 ==> s[1] != '0'
    ensures s == "0" ==> n == 0
  {
    if n < 0 then "-" + NatToString(-n) else NatToString(n)
  }

  /** The value of a string of decimal digits. */
  function ParseNat(s: string): nat
    requires AllDigits(s)
  {
    if s == [] then 0
    else ParseNat(s[..|s| - 1]) * 10 + (s[|s| - 1] as int - '0' as int)
  }

  /** Inverse of IntToString. */
  function ParseInt(s: string): int
    requires |s| > 0
    requires s[0] == '-' ==> AllDigits(s[1..])
    requires s[0] != '-' ==> AllDigits(s)
  {
    if s[0] == '-' then 0 - ParseNat(s[1..]) else ParseNat(s)
  }

  lemma {:induction false} NatToStringRoundTrip(n: nat)
    ensures ParseNat(NatToString(n)) == n
  {
    var s := NatToString(n);
    if n < 10 {
      assert s[..|s| - 1] == [];
    } else {
      NatToStringRoundTrip(n / 10);
      assert s[..|s| - 1] == NatToString(n / 10);
    }
  }

  /** IntToString loses nothing: the number is recovered from its decimal text. */
  lemma IntToStringRoundTrip(n: int)
    ensures var s := IntToString(n);
      |s| > 0 && (s[0] == '-' ==> AllDigits(s[1..])) && (s[0] != '-' ==> AllDigits(s)) &&
      ParseInt(s) == n
  {
    if n < 0 {
      NatToStringRoundTrip(-n);
      assert IntToString(n)[1..] == NatToString(-n);
    } else {
      NatToStringRoundTrip(n);
      assert IsDigit(NatToString(n)[0]);
    }
  }

  lemma IntToStringInjective(a: int, b: int)
    requires IntToString(a) == IntToString(b)
    ensures a == b
  {
    IntToStringRoundTrip(a);
    IntToStringRoundTrip(b);
  }

  lemma IntToStringNoSlash(n: int)
    ensures '/' !in IntToString(n)
  {
    var d := NatToString(if n < 0 then -n else n);
    assert forall i :: 0 <= i < |d| ==> d[i] != '/';
    if n < 0 {
      assert IntToString(n) == ['-'] + d;
    }
  }

  lemma IntToStringNoUnderscore(n: int)
    ensures '_' !in IntToString(n)
  {
    var d := NatToString(if n < 0 then -n else n);
    assert forall i :: 0 <= i < |d| ==> d[i] != '_';
    if n < 0 {
      assert IntToString(n) == ['-'] + d;
    }
  }

  /** Splitting at the first separator: `a + [c] + x == b + [c] + y` with `c` in neither `a` nor `b`. */
  lemma SplitAtFirst(a: string, x: string, b: string, y: string, c: char)
    requires c !in a && c !in b
    requires a + [c] + x == b + [c] + y
    ensures a == b && x == y
  {
    var s := a + [c] + x;
    FindAfterPrefix(a, c, x);
    FindAfterPrefix(b, c, y);
    assert a == s[..|a|] == b;
    assert x == s[|a| + 1..] == y;
  }

  lemma FindAfterPrefix(a: string, c: char, x: string)
    requires c !in a
    ensures Find(a + [c] + x, c) == |a|
  {
    var s := a + [c] + x;
    assert s[|a|] == c;
    assert s[..|a|] == a;
  }

  /** `os.path.basename` on POSIX: what follows the last '/'. */
  function Basename(p: string): (r: string)
    ensures '/' !in r
    ensures |r| <= |p| && p[|p| - |r|..] == r
    ensures |r| == |p| || p[|p| - |r| - 1] == '/'
  {
    p[RFind(p, '/') + 1..]
  }

  /**
   * `os.path.join(a, b)` on POSIX for two components: an absolute `b` replaces `a`; otherwise
   * `b` follows `a`, with one '/' between them unless `a` is empty or already ends in '/'.
   */
  function Join(a: string, b: string): (p: string)
    ensures |b| > 0 && b[0] == '/' ==> p == b
    ensures !(|b| > 0 && b[0] == '/') ==> |a| + |b| <= |p| && p[..|a|] == a && p[|p| - |b|..] == b
    ensures !(|b| > 0 && b[0] == '/') ==>
      (|p| == |a| + |b| <==> a == [] || a[|a| - 1] == '/')
    ensures |p| <= |a| + |b| + 1
    ensures |p| == |a| + |b| + 1 ==> p[|a|] == '/'
  {
    if |b| > 0 && b[0] == '/' then b
    else if a == [] || a[|a| - 1] == '/' then a + b
    else a + "/" + b
  }

  /** Joining a directory with a plain file name and taking the basename gives the name back. */
  lemma BasenameOfJoin(dir: string, name: string)
    requires '/' !in name
    ensures Basename(Join(dir, name)) == name
  {
    var p := Join(dir, name);
    var head := p[..|p| - |name|];
    assert p == head + name;
    assert head == [] || head[|head| - 1] == '/';
    BasenameOfSuffix(head, name);
  }

  lemma BasenameOfSuffix(head: string, name: string)
    requires '/' !in name
    requires head == [] || head[|head| - 1] == '/'
    ensures Basename(head + name) == name
  {
    var p := head + name;
    var i := RFind(p, '/');
    if head != [] {
      assert p[|head| - 1] == '/';
      assert p[|head|..] == name;
    }
    assert i == |head| - 1;
  }

  /** `pathlib.PurePath(name).stem` for a name with no separator: the name less its last suffix. */
  function Stem(name: string): (r: string)
    ensures |r| <= |name| && name[..|r|] == r
    ensures r == name || (name[|r|] == '.' && '.' !in name[|r| + 1..] && 0 < |r| < |name| - 1)
    ensures forall j :: 0 < j < |name| - 1 && name[j] == '.' && '.' !in name[j + 1..] ==> r == name[..j]
  {
    var i := RFind(name, '.');
    LastOccurrenceUnique(name, '.', i);
    if 0 < i < |name| - 1 then name[..i] else name
  }

  /** Only one position holds the last occurrence of a character. */
  lemma LastOccurrenceUnique(s: string, c: char, i: int)
    requires i == RFind(s, c)
    ensures forall j :: 0 <= j < |s| && s[j] == c && c !in s[j + 1..] ==> j == i
  {
    forall j | 0 <= j < |s| && s[j] == c && c !in s[j + 1..]
      ensures j == i
    {
      assert c in s;
    }
  }

  /** A name made of a non-empty stem and one dotted extension has exactly that stem. */
  lemma StemOfNameWithExtension(base: string, ext: string)
    requires |base| > 0 && |ext| >= 2 && ext[0] == '.' && '.' !in ext[1..]
    ensures Stem(base + ext) == base
  {
    var name := base + ext;
    var i := RFind(name, '.');
    assert name[|base|] == '.';
    assert name[|base| + 1..] == ext[1..];
  }
}
