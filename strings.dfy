/** The few Python `str`, `os.path` and `pathlib` operations the core relies
    on, over `string` (a sequence of `char`). Case mapping and white space
    are the ASCII ones. */
module Strings {
  import opened Wrappers

  // ---------------------------------------------------------------- case

  function LowerChar(c: char): char {
    if 'A' <= c <= 'Z' then (c as int + 32) as char else c
  }

  /** `s.lower()` on ASCII letters. */
  function Lower(s: string): (r: string)
    ensures |r| == |s|
  {
    if s == [] then [] else [LowerChar(s[0])] + Lower(s[1..])
  }

  lemma {:induction false} LowerAt(s: string, i: nat)
    requires i < |s|
    ensures Lower(s)[i] == LowerChar(s[i])
    decreases i
  {
    if i > 0 {
      LowerAt(s[1..], i - 1);
    }
  }

  /** `s.lower() == t` whenever `t` is `s` lowered character by character. */
  lemma LowerEq(s: string, t: string)
    requires |s| == |t| && forall i :: 0 <= i < |s| ==> LowerChar(s[i]) == t[i]
    ensures Lower(s) == t
  {
    forall i | 0 <= i < |s|
      ensures Lower(s)[i] == t[i]
    {
      LowerAt(s, i);
    }
  }

  /** A lowered string holds no upper-case letter. */
  lemma {:induction false} LowerHasNoUpper(s: string)
    ensures forall i :: 0 <= i < |s| ==> !('A' <= Lower(s)[i] <= 'Z')
    decreases |s|
  {
    if s != [] {
      LowerHasNoUpper(s[1..]);
      assert forall i :: 1 <= i < |s| ==> Lower(s)[i] == Lower(s[1..])[i - 1];
    }
  }

  /** Lowering twice is lowering once. */
  lemma LowerIdempotent(s: string)
    ensures Lower(Lower(s)) == Lower(s)
  {
    forall i | 0 <= i < |s| ensures LowerChar(Lower(s)[i]) == Lower(s)[i] {
      LowerAt(s, i);
    }
    LowerEq(Lower(s), Lower(s));
  }

  /** Python's `<` on strings is irreflexive. */
  lemma {:induction false} LexLessIrreflexive(a: string)
    ensures !LexLess(a, a)
    decreases |a|
  {
    if a != [] {
      LexLessIrreflexive(a[1..]);
    }
  }

  lemma LowerEndsWith(s: string, t: string)
    requires EndsWith(s, t)
    ensures EndsWith(Lower(s), Lower(t))
  {
    var k := |s| - |t|;
    forall i | 0 <= i < |t|
      ensures Lower(s)[k + i] == Lower(t)[i]
    {
      LowerAt(s, k + i);
      LowerAt(t, i);
    }
    assert Lower(s)[k..] == Lower(t);
  }

  // --------------------------------------------------------- white space

  /** The ASCII characters for which `str.isspace()` holds. */
  predicate IsSpace(c: char) {
    c == ' ' || 9 <= c as int <= 13 || 28 <= c as int <= 31
  }

  function LStrip(s: string): string {
    if s != [] && IsSpace(s[0]) then LStrip(s[1..]) else s
  }

  function RStrip(s: string): string {
    if s != [] && IsSpace(s[|s| - 1]) then RStrip(s[..|s| - 1]) else s
  }

  /** `s.strip()`: the longest slice with no white space at either end. */
  function Strip(s: string): string {
    RStrip(LStrip(s))
  }

  lemma {:induction false} LStripShape(s: string)
    ensures var r := LStrip(s);
      && |r| <= |s| && r == s[|s| - |r|..]
      && (r == [] || !IsSpace(r[0]))
      && forall i :: 0 <= i < |s| - |r| ==> IsSpace(s[i])
    decreases |s|
  {
    if s != [] && IsSpace(s[0]) {
      LStripShape(s[1..]);
    }
  }

  lemma {:induction false} RStripShape(s: string)
    ensures var r := RStrip(s);
      && |r| <= |s| && r == s[..|r|]
      && (r == [] || !IsSpace(r[|r| - 1]))
      && forall i :: |r| <= i < |s| ==> IsSpace(s[i])
    decreases |s|
  {
    if s != [] && IsSpace(s[|s| - 1]) {
      RStripShape(s[..|s| - 1]);
    }
  }

  /** A stripped string is a slice of the original with no white space at
      either end, and everything cut off is white space. */
  lemma StripShape(s: string)
    ensures var r := Strip(s);
      && |r| <= |s|
      && (r == [] || (!IsSpace(r[0]) && !IsSpace(r[|r| - 1])))
  {
    LStripShape(s);
    RStripShape(LStrip(s));
    var l := LStrip(s);
    var r := RStrip(l);
    if r != [] {
      assert r[0] == l[0];
    }
  }

  // --------------------------------------------------------- affixes

  predicate StartsWith(s: string, prefix: string) {
    |prefix| <= |s| && s[..|prefix|] == prefix
  }

  predicate EndsWith(s: string, suffix: string) {
    |suffix| <= |s| && s[|s| - |suffix|..] == suffix
  }

  /** `needle in hay` for strings. */
  predicate Contains(hay: string, needle: string)
    decreases |hay|
  {
    StartsWith(hay, needle) || (hay != [] && Contains(hay[1..], needle))
  }

  // --------------------------------------------------------- splitting

  /** `s.split(c)[-1]`: the text after the last `c`, or all of `s`. */
  function AfterLast(s: string, c: char): (r: string)
    ensures c !in r
    ensures EndsWith(s, r)
    ensures |r| < |s| ==> s[|s| - |r| - 1] == c
  {
    if s == [] then []
    else if s[|s| - 1] == c then []
    else AfterLast(s[..|s| - 1], c) + [s[|s| - 1]]
  }

  /** Without a `c`, `s.split(c)[-1]` is `s` itself. */
  lemma AfterLastWhole(s: string, c: char)
    requires c !in s
    ensures AfterLast(s, c) == s
  {
  }

  /** `s.split(c)[0]`: the text before the first `c`, or all of `s`. */
  function BeforeFirst(s: string, c: char): (r: string)
    ensures c !in r
    ensures StartsWith(s, r)
    ensures |r| < |s| ==> s[|r|] == c
    ensures c !in s ==> r == s
  {
    if s == [] then []
    else if s[0] == c then []
    else [s[0]] + BeforeFirst(s[1..], c)
  }

  /** Text before a first `c` is what `s.split(c)[0]` gives back. */
  lemma {:induction false} BeforeFirstAppend(a: string, c: char, b: string)
    requires c !in a
    ensures BeforeFirst(a + [c] + b, c) == a
    decreases |a|
  {
    if a != [] {
      assert (a + [c] + b)[1..] == a[1..] + [c] + b;
      BeforeFirstAppend(a[1..], c, b);
    }
  }

  /** `os.path.basename(p)` and `PurePath(p).name` for a path without a
      trailing separator. */
  function Basename(p: string): string {
    AfterLast(p, '/')
  }

  /** The extension part of `os.path.splitext(p)`: from the last dot of the
      base name, provided some character before that dot is not a dot. */
  function SplitExt(p: string): string {
    NameExt(Basename(p))
  }

  predicate AllDots(s: string) {
    s == [] || (s[0] == '.' && AllDots(s[1..]))
  }

  function NameExt(name: string): string {
    var tail := AfterLast(name, '.');
    if |tail| == |name| then []
    else if !AllDots(name[..|name| - |tail| - 1]) then ['.'] + tail
    else []
  }

  /** A non-empty extension starts with a dot and ends the path. */
  lemma SplitExtShape(p: string)
    ensures SplitExt(p) == [] || (SplitExt(p)[0] == '.' && EndsWith(p, SplitExt(p)))
  {
    var name := Basename(p);
    var tail := AfterLast(name, '.');
    if SplitExt(p) != [] {
      DotTailEnds(name, tail);
      EndsWithTrans(p, name, SplitExt(p));
    }
  }

  /** `PurePath(p).suffix`: from the last dot of the name, when that dot is
      neither the first nor the last character of the name. */
  function Suffix(p: string): (ext: string)
    ensures ext == [] || (|ext| >= 2 && ext[0] == '.' && EndsWith(p, ext))
    ensures ext == [] || |ext| < |Basename(p)|
  {
    var e := NameSuffix(Basename(p));
    EndsWithTrans(p, Basename(p), e);
    e
  }

  function NameSuffix(name: string): (ext: string)
    ensures ext == [] || (|ext| >= 2 && ext[0] == '.' && EndsWith(name, ext))
    ensures ext == [] || |ext| < |name|
  {
    var tail := AfterLast(name, '.');
    if |tail| == |name| || |tail| == 0 || |tail| + 1 == |name| then []
    else
      DotTailEnds(name, tail);
      ['.'] + tail
  }

  /** The last dot of a name and what follows it end the name. */
  lemma DotTailEnds(name: string, tail: string)
    requires EndsWith(name, tail) && |tail| < |name|
    requires name[|name| - |tail| - 1] == '.'
    ensures EndsWith(name, ['.'] + tail)
  {
    var k := |name| - |tail| - 1;
    assert ['.'] + tail == name[k..];
  }

  lemma EndsWithTrans(a: string, b: string, c: string)
    requires EndsWith(a, b) && EndsWith(b, c)
    ensures EndsWith(a, c)
  {
    assert a[|a| - |c|..] == b[|b| - |c|..];
  }

  /** `os.path.join(a, b)` on POSIX. */
  function Join(a: string, b: string): (r: string)
    ensures EndsWith(r, b)
    ensures StartsWith(b, "/") ==> r == b
  {
    if StartsWith(b, "/") then b
    else if a == [] || a[|a| - 1] == '/' then a + b
    else a + "/" + b
  }

  /** Text appended after a `c` is what follows the last `c`. */
  lemma {:induction false} AfterLastAppend(a: string, b: string, c: char)
    requires c !in b
    requires a == [] || a[|a| - 1] == c
    ensures AfterLast(a + b, c) == b
    decreases |b|
  {
    if b == [] {
      assert a + b == a;
    } else {
      var s := a + b;
      assert s[..|s| - 1] == a + b[..|b| - 1];
      AfterLastAppend(a, b[..|b| - 1], c);
    }
  }

  /** A plain file name joined to a directory is the base name of the result. */
  lemma BasenameOfJoin(dir: string, name: string)
    requires name != [] && '/' !in name
    ensures Basename(Join(dir, name)) == name
  {
    if dir == [] || dir[|dir| - 1] == '/' {
      AfterLastAppend(dir, name, '/');
    } else {
      assert dir + "/" + name == (dir + "/") + name;
      AfterLastAppend(dir + "/", name, '/');
    }
  }

  /** Joining a plain file name to a directory keeps its extension. */
  lemma SplitExtOfJoin(dir: string, name: string)
    requires name != [] && '/' !in name
    ensures SplitExt(Join(dir, name)) == SplitExt(name)
  {
    BasenameOfJoin(dir, name);
  }

  // --------------------------------------------------------- ordering

  /** Python's `a < b` on strings: lexicographic by code point. */
  predicate LexLess(a: string, b: string)
    decreases |a|
  {
    if a == [] then b != []
    else if b == [] then false
    else if a[0] != b[0] then a[0] < b[0]
    else LexLess(a[1..], b[1..])
  }

  // --------------------------------------------------------- integers

  predicate IsDigits(s: string) {
    forall i :: 0 <= i < |s| ==> '0' <= s[i] <= '9'
  }

  function DigitChar(d: nat): char
    requires d < 10
  {
    ('0' as int + d) as char
  }

  /** `str(n)` for `n >= 0`. */
  function NatToString(n: nat): (r: string)
    ensures r != [] && IsDigits(r)
  {
    if n < 10 then [DigitChar(n)] else NatToString(n / 10) + [DigitChar(n % 10)]
  }

  /** `str(n)`: an optional minus sign and the decimal digits. */
  function IntToString(n: int): (r: string)
    ensures r != []
    ensures r[0] == '-' || '0' <= r[0] <= '9'
  {
    if n < 0 then "-" + NatToString(-n) else NatToString(n)
  }

  function DigitsValue(s: string): nat
    requires IsDigits(s)
  {
    if s == [] then 0 else DigitsValue(s[..|s| - 1]) * 10 + (s[|s| - 1] as int - '0' as int)
  }

  /** `int(s)`, restricted to an optional "-" followed by ASCII digits;
      `None` stands for the `ValueError` raised on any other text. */
  function ParseInt(s: string): (r: Option<int>)
    ensures r.Some? <==> (s != [] && IsDigits(s)) || (|s| > 1 && s[0] == '-' && IsDigits(s[1..]))
  {
    if s != [] && IsDigits(s) then Some(DigitsValue(s))
    else if |s| > 1 && s[0] == '-' && IsDigits(s[1..]) then Some(0 - DigitsValue(s[1..]))
    else None
  }

  lemma {:induction false} DigitsValueOfNatToString(n: nat)
    ensures DigitsValue(NatToString(n)) == n
  {
    if n >= 10 {
      var high := NatToString(n / 10);
      var s := high + [DigitChar(n % 10)];
      assert s[..|s| - 1] == high;
      DigitsValueOfNatToString(n / 10);
    }
  }

  /** `int(str(n)) == n` for every integer. */
  lemma ParseIntOfIntToString(n: int)
    ensures ParseInt(IntToString(n)) == Some(n)
  {
    var s := IntToString(n);
    if n < 0 {
      var digits := NatToString(-n);
      assert s == ['-'] + digits;
      assert s[1..] == digits;
      assert s[0] == '-';
      assert !IsDigits(s);
      DigitsValueOfNatToString(-n);
      assert ParseInt(s) == Some(0 - DigitsValue(digits));
    } else {
      assert s == NatToString(n);
      DigitsValueOfNatToString(n);
    }
  }
}
