/** String helpers with Python's meaning: str.isspace(), str.strip(),
    str(n) and the "0<width>d" format of an int, and their inverse readers. */
module Text {
  import opened Wrappers

  /** Python's str.isspace() on one character; `\s` in a str pattern and
      str.strip() without arguments use the same set. */
  predicate IsSpace(c: char) {
    var n := c as int;
    (9 <= n <= 13) || (28 <= n <= 32) || n == 0x85 || n == 0xA0 || n == 0x1680
    || (0x2000 <= n <= 0x200A) || n == 0x2028 || n == 0x2029 || n == 0x202F
    || n == 0x205F || n == 0x3000
  }

  predicate AllSpace(s: string) {
    forall i :: 0 <= i < |s| ==> IsSpace(s[i])
  }

  predicate StartsWith(s: string, prefix: string) {
    |prefix| <= |s| && s[..|prefix|] == prefix
  }

  /** How many whitespace characters s starts with. */
  function LeadingSpaces(s: string): (k: nat)
    ensures k <= |s| && (k < |s| ==> !IsSpace(s[k]))
    ensures forall i :: 0 <= i < k ==> IsSpace(s[i])
  {
    if s != [] && IsSpace(s[0]) then 1 + LeadingSpaces(s[1..]) else 0
  }

  /** How many whitespace characters s ends with. */
  function TrailingSpaces(s: string): (k: nat)
    ensures k <= |s| && (k < |s| ==> !IsSpace(s[|s| - 1 - k]))
    ensures forall i :: |s| - k <= i < |s| ==> IsSpace(s[i])
  {
    if s != [] && IsSpace(s[|s| - 1]) then 1 + TrailingSpaces(s[..|s| - 1]) else 0
  }

  /** Python's str.lstrip() */
  function TrimStart(s: string): string {
    s[LeadingSpaces(s)..]
  }

  /** Python's str.rstrip() */
  function TrimEnd(s: string): string {
    s[..|s| - TrailingSpaces(s)]
  }

  /** Python's str.strip(): the slice of s left once the whitespace at both ends is gone. */
  function Strip(s: string): (r: string)
    ensures |r| <= |s|
    ensures r == [] || (!IsSpace(r[0]) && !IsSpace(r[|r| - 1]))
  {
    var t := TrimStart(s);
    var r := TrimEnd(t);
    assert r != [] ==> r[0] == s[LeadingSpaces(s)] && r[|r| - 1] == t[|t| - 1 - TrailingSpaces(t)];
    r
  }

  /** Strip keeps one slice of s, and everything outside that slice is whitespace;
      k is where the slice starts. */
  lemma {:induction false} StripSlice(s: string) returns (k: nat)
    ensures k + |Strip(s)| <= |s|
    ensures Strip(s) == s[k..k + |Strip(s)|]
    ensures AllSpace(s[..k]) && AllSpace(s[k + |Strip(s)|..])
  {
    k := LeadingSpaces(s);
    var t := TrimStart(s);
    var j := TrailingSpaces(t);
    var r := Strip(s);
    assert r == t[..|t| - j];
    SliceOfSuffix(s, k, |r|);
    forall i | 0 <= i < k ensures IsSpace(s[..k][i]) {
      assert s[..k][i] == s[i];
    }
    var e := s[k + |r|..];
    forall i | 0 <= i < |e| ensures IsSpace(e[i]) {
      assert e[i] == t[|r| + i];
    }
  }

  lemma {:induction false} SliceOfSuffix<T>(s: seq<T>, k: nat, n: nat)
    requires k + n <= |s|
    ensures s[k..][..n] == s[k..k + n] && s[k..][n..] == s[k + n..]
  {
  }

  /** Strip gives the empty string exactly when s is all whitespace. */
  lemma {:induction false} StripEmpty(s: string)
    ensures Strip(s) == [] <==> AllSpace(s)
  {
    var k := StripSlice(s);
    if Strip(s) == [] {
      forall i | 0 <= i < |s| ensures IsSpace(s[i]) {
        if i >= k { assert s[i] == s[k..][i - k]; } else { assert s[i] == s[..k][i]; }
      }
    }
  }

  predicate IsDigit(c: char) {
    '0' <= c <= '9'
  }

  predicate AllDigits(s: string) {
    forall i :: 0 <= i < |s| ==> IsDigit(s[i])
  }

  function DigitChar(d: nat): (c: char)
    requires d < 10
    ensures IsDigit(c) && c as int - '0' as int == d
  {
    (48 + d) as char
  }

  function DigitValue(c: char): nat
    requires IsDigit(c)
  {
    c as int - '0' as int
  }

  /** The number a string of decimal digits denotes (leading zeros allowed). */
  function DigitsValue(s: string): nat
    requires AllDigits(s)
  {
    if s == [] then 0 else 10 * DigitsValue(s[..|s| - 1]) + DigitValue(s[|s| - 1])
  }

  /** Python's str(n) for a non-negative int: decimal digits, no leading zero. */
  function NatToString(n: nat): (r: string)
    ensures 1 <= |r| && AllDigits(r)
    ensures r[0] == '0' ==> r == "0"
    ensures n < 10 ==> |r| == 1
    ensures 10 <= n < 100 ==> |r| == 2
    ensures 100 <= n < 1000 ==> |r| == 3
  {
    if n < 10 then [DigitChar(n)] else NatToString(n / 10) + [DigitChar(n % 10)]
  }

  lemma {:induction false} NatToStringValue(n: nat)
    ensures DigitsValue(NatToString(n)) == n
  {
    if n >= 10 {
      NatToStringValue(n / 10);
      var s := NatToString(n);
      assert s[..|s| - 1] == NatToString(n / 10);
    }
  }

  function Repeat(c: char, k: nat): (r: string)
    ensures |r| == k && forall i :: 0 <= i < k ==> r[i] == c
  {
    seq(k, _ => c)
  }

  /** s preceded by as many copies of fill as make it width long (or s itself when it is already as long). */
  function PadLeft(s: string, width: nat, fill: char): (r: string)
    ensures |r| == if |s| < width then width else |s|
    ensures r == Repeat(fill, |r| - |s|) + s
  {
    if |s| < width then Repeat(fill, width - |s|) + s else Repeat(fill, 0) + s
  }

  /** Python's format(n, "0<width>d"): a sign for negative n, then the digits of |n|
      zero-padded so that sign and digits together are at least width characters. */
  function FormatInt(n: int, width: nat): (r: string)
  {
    if n < 0 then "-" + PadLeft(NatToString(-n), if width > 0 then width - 1 else 0, '0')
    else PadLeft(NatToString(n), width, '0')
  }

  /** Reads an optional '-' and at least one decimal digit, and nothing else. */
  function ParseInt(s: string): Option<int> {
    if |s| >= 2 && s[0] == '-' && AllDigits(s[1..]) then Some(0 - DigitsValue(s[1..]))
    else if |s| >= 1 && AllDigits(s) then Some(DigitsValue(s))
    else None
  }

  lemma {:induction false} ZeroPrefix(t: string)
    requires AllDigits(t)
    ensures AllDigits("0" + t) && DigitsValue("0" + t) == DigitsValue(t)
  {
    if t != [] {
      ZeroPrefix(t[..|t| - 1]);
      assert ("0" + t)[..|t|] == "0" + t[..|t| - 1];
    }
  }

  lemma {:induction false} LeadingZeros(k: nat, s: string)
    requires AllDigits(s)
    ensures AllDigits(Repeat('0', k) + s) && DigitsValue(Repeat('0', k) + s) == DigitsValue(s)
  {
    if k == 0 {
      assert Repeat('0', k) + s == s;
    } else {
      LeadingZeros(k - 1, s);
      ZeroPrefix(Repeat('0', k - 1) + s);
      assert Repeat('0', k) + s == "0" + (Repeat('0', k - 1) + s);
    }
  }

  /** Zero padding keeps the value of the digits. */
  lemma {:induction false} PadLeftValue(s: string, width: nat)
    requires AllDigits(s)
    ensures AllDigits(PadLeft(s, width, '0'))
    ensures DigitsValue(PadLeft(s, width, '0')) == DigitsValue(s)
  {
    var r := PadLeft(s, width, '0');
    LeadingZeros(|r| - |s|, s);
  }

  /** Reading back what FormatInt writes gives the number, whatever the width. */
  lemma {:induction false} FormatIntRoundTrip(n: int, width: nat)
    ensures ParseInt(FormatInt(n, width)) == Some(n)
  {
    if n < 0 {
      NegativeRoundTrip(n, width);
    } else {
      NonNegativeRoundTrip(n, width);
    }
  }

  lemma {:induction false} NegativeRoundTrip(n: int, width: nat)
    requires n < 0
    ensures ParseInt(FormatInt(n, width)) == Some(n)
  {
    var w := if width > 0 then width - 1 else 0;
    var d := FormatInt(-n, w);
    assert FormatInt(n, width) == "-" + d;
    FormatIntDigits(-n, w);
    ParseNegative(d);
  }

  lemma {:induction false} ParseNegative(d: string)
    requires |d| >= 1 && AllDigits(d)
    ensures ParseInt("-" + d) == Some(0 - DigitsValue(d))
  {
    assert ("-" + d)[1..] == d;
  }

  lemma {:induction false} NonNegativeRoundTrip(n: int, width: nat)
    requires n >= 0
    ensures ParseInt(FormatInt(n, width)) == Some(n)
  {
    NatToStringValue(n);
    PadLeftValue(NatToString(n), width);
  }

  /** A non-negative number is written as digits only, and they denote it. */
  lemma {:induction false} FormatIntDigits(n: nat, width: nat)
    ensures |FormatInt(n, width)| >= 1
    ensures AllDigits(FormatInt(n, width)) && DigitsValue(FormatInt(n, width)) == n
  {
    NatToStringValue(n);
    PadLeftValue(NatToString(n), width);
  }

  /** For 0 <= n < 10^width the "0<width>d" format is exactly width digits. */
  lemma {:induction false} FormatIntWidth(n: int, width: nat)
    requires 0 <= n && (width == 2 ==> n < 100) && (width == 3 ==> n < 1000)
    requires width == 2 || width == 3
    ensures |FormatInt(n, width)| == width && AllDigits(FormatInt(n, width))
  {
  }

  /** FormatInt writes only digits and a leading minus sign. */
  lemma {:induction false} FormatIntChars(n: int, width: nat)
    ensures var r := FormatInt(n, width);
      forall i :: 0 <= i < |r| ==> IsDigit(r[i]) || r[i] == '-'
  {
    var w := if n < 0 && width > 0 then width - 1 else if n < 0 then 0 else width;
    var digits := NatToString(if n < 0 then -n else n);
    var p := PadLeft(digits, w, '0');
    PadDigits(digits, w);
    if n < 0 {
      assert FormatInt(n, width) == "-" + p;
    } else {
      assert FormatInt(n, width) == p;
    }
  }

  /** Zero-padding a string of digits leaves a string of digits. */
  lemma {:induction false} PadDigits(s: string, width: nat)
    requires AllDigits(s)
    ensures AllDigits(PadLeft(s, width, '0'))
  {
    var r := PadLeft(s, width, '0');
    var k := |r| - |s|;
    assert r == Repeat('0', k) + s;
    forall i | 0 <= i < |r|
      ensures IsDigit(r[i])
    {
      if i >= k {
        assert r[i] == s[i - k];
      }
    }
  }

  /** Python's sep.join(items). */
  function Join(sep: string, items: seq<string>): (r: string)
    ensures |items| == 0 ==> r == ""
    ensures |items| == 1 ==> r == items[0]
  {
    if |items| == 0 then ""
    else if |items| == 1 then items[0]
    else Join(sep, items[..|items| - 1]) + sep + items[|items| - 1]
  }

  /** The index of the first c in s, or |s| when there is none. */
  function FirstIndexOf(s: string, c: char): (i: nat)
    ensures i <= |s| && (i < |s| ==> s[i] == c)
  {
    if s == [] || s[0] == c then 0 else 1 + FirstIndexOf(s[1..], c)
  }

  /** Python's s.split(sep) for a one-character separator: the pieces between separators,
      an empty piece where two separators meet or one ends the string. */
  function Split(s: string, sep: char): (r: seq<string>)
    ensures |r| >= 1
    decreases |s|
  {
    var i := FirstIndexOf(s, sep);
    if i == |s| then [s] else [s[..i]] + Split(s[i + 1..], sep)
  }

  /** A string without the separator is a single piece. */
  lemma {:induction false} SplitNone(s: string, sep: char)
    requires sep !in s
    ensures Split(s, sep) == [s]
  {
  }

  /** Splitting at a separator that joins two strings splits each of them. */
  lemma {:induction false} SplitConcat(a: string, sep: char, b: string)
    ensures Split(a + [sep] + b, sep) == Split(a, sep) + Split(b, sep)
    decreases |a|
  {
    var i := FirstIndexOf(a, sep);
    FirstIndexOfConcat(a, sep, b);
    if i == |a| {
      SplitAtEnd(a, sep, b);
    } else {
      SplitConcat(a[i + 1..], sep, b);
      SplitAtInner(a, sep, b, i);
    }
  }

  lemma {:induction false} SplitAtEnd(a: string, sep: char, b: string)
    requires FirstIndexOf(a, sep) == |a| && FirstIndexOf(a + [sep] + b, sep) == |a|
    ensures Split(a + [sep] + b, sep) == Split(a, sep) + Split(b, sep)
  {
    var x := a + [sep] + b;
    assert x[..|a|] == a && x[|a| + 1..] == b;
  }

  lemma {:induction false} SplitAtInner(a: string, sep: char, b: string, i: nat)
    requires i < |a| && FirstIndexOf(a, sep) == i && FirstIndexOf(a + [sep] + b, sep) == i
    requires Split(a[i + 1..] + [sep] + b, sep) == Split(a[i + 1..], sep) + Split(b, sep)
    ensures Split(a + [sep] + b, sep) == Split(a, sep) + Split(b, sep)
  {
    var x := a + [sep] + b;
    var rest := a[i + 1..];
    calc {
      Split(x, sep);
      [x[..i]] + Split(x[i + 1..], sep);
      { assert x[..i] == a[..i] && x[i + 1..] == rest + [sep] + b; }
      [a[..i]] + Split(rest + [sep] + b, sep);
      [a[..i]] + (Split(rest, sep) + Split(b, sep));
      { SeqAssoc([a[..i]], Split(rest, sep), Split(b, sep)); }
      ([a[..i]] + Split(rest, sep)) + Split(b, sep);
      Split(a, sep) + Split(b, sep);
    }
  }

  lemma {:induction false} SeqAssoc<T>(p: seq<T>, u: seq<T>, v: seq<T>)
    ensures p + (u + v) == (p + u) + v
  {
  }

  lemma {:induction false} FirstIndexOfConcat(a: string, sep: char, b: string)
    ensures FirstIndexOf(a + [sep] + b, sep) == FirstIndexOf(a, sep)
  {
    var x := a + [sep] + b;
    if a == [] {
      assert x[0] == sep;
    } else {
      assert x[0] == a[0] && x[1..] == a[1..] + [sep] + b;
      FirstIndexOfConcat(a[1..], sep, b);
    }
  }


  /** The pieces of each item, item after item. */
  function SplitEach(items: seq<string>, sep: char): seq<string> {
    if items == [] then [] else SplitEach(items[..|items| - 1], sep) + Split(items[|items| - 1], sep)
  }

  /** Splitting a join at its separator splits every item in turn. */
  lemma {:induction false} SplitJoin(items: seq<string>, sep: char)
    requires items != []
    ensures Split(Join([sep], items), sep) == SplitEach(items, sep)
    decreases |items|
  {
    var n := |items|;
    var p := items[..n - 1];
    var last := items[n - 1];
    if n == 1 {
      assert p == [];
      assert Join([sep], items) == last;
    } else {
      var j := Join([sep], p);
      assert Join([sep], items) == j + [sep] + last;
      SplitConcat(j, sep, last);
      SplitJoin(p, sep);
    }
  }

  /** Python's s.rfind(c): the last index of c in s, or -1. */
  function LastIndexOf(s: string, c: char): (i: int)
    ensures -1 <= i < |s|
    ensures i >= 0 ==> s[i] == c
    ensures forall j :: i < j < |s| ==> s[j] != c
  {
    if s == [] then -1
    else if s[|s| - 1] == c then |s| - 1
    else LastIndexOf(s[..|s| - 1], c)
  }

  /** r can be obtained from s by deleting elements, order kept (matched greedily from the front). */
  predicate IsSubsequence<T(==)>(r: seq<T>, s: seq<T>)
    decreases |s|
  {
    r == [] || (s != [] && if r[0] == s[0] then IsSubsequence(r[1..], s[1..]) else IsSubsequence(r, s[1..]))
  }

  /** One more element in front of s keeps r a subsequence. */
  lemma {:induction false} SubsequenceCons<T>(r: seq<T>, s: seq<T>)
    requires s != [] && IsSubsequence(r, s[1..])
    ensures IsSubsequence(r, s)
    decreases |s|, 0
  {
    if r != [] && r[0] == s[0] {
      SubsequenceTail(r, s[1..]);
    }
  }

  /** Dropping the first element of r keeps it a subsequence. */
  lemma {:induction false} SubsequenceTail<T>(r: seq<T>, t: seq<T>)
    requires r != [] && IsSubsequence(r, t)
    ensures IsSubsequence(r[1..], t)
    decreases |t|, 1
  {
    if r[0] == t[0] {
      if r[1..] != [] {
        SubsequenceCons(r[1..], t);
      }
    } else {
      SubsequenceTail(r, t[1..]);
      SubsequenceCons(r[1..], t);
    }
  }

  lemma {:induction false} SubsequenceOfSuffix<T>(r: seq<T>, s: seq<T>, k: nat)
    requires k <= |s| && IsSubsequence(r, s[k..])
    ensures IsSubsequence(r, s)
  {
    if k > 0 {
      assert s[k - 1..][1..] == s[k..];
      SubsequenceCons(r, s[k - 1..]);
      SubsequenceOfSuffix(r, s, k - 1);
    }
  }
}
