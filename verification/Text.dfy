/** The string functions of Go the controller relies on: decimal printing, `%04d` and strings.Split. */
module Text {

  predicate IsDigit(c: char) {
    '0' <= c <= '9'
  }

  function DigitChar(d: nat): (c: char)
    requires d < 10
    ensures IsDigit(c) && c as int - '0' as int == d
  {
    ('0' as int + d) as char
  }

  /** `%d` of a natural number. */
  function Decimal(n: nat): (s: string)
    ensures s != [] && forall c | c in s :: IsDigit(c)
  {
    if n < 10 then [DigitChar(n)] else Decimal(n / 10) + [DigitChar(n % 10)]
  }

  /** The number a digit string denotes; leading zeros are allowed. */
  function Value(s: string): int {
    if s == [] then 0 else Value(s[..|s| - 1]) * 10 + (s[|s| - 1] as int - '0' as int)
  }

  lemma {:induction false} ValueOfDecimal(n: nat)
    ensures Value(Decimal(n)) == n
  {
    if n < 10 {
      assert [DigitChar(n)][..0] == [];
    } else {
      ValueOfDecimal(n / 10);
      assert Decimal(n)[..|Decimal(n)| - 1] == Decimal(n / 10);
    }
  }

  lemma DecimalInjective(m: nat, n: nat)
    requires Decimal(m) == Decimal(n)
    ensures m == n
  {
    ValueOfDecimal(m);
    ValueOfDecimal(n);
  }

  /** `%04d` of a natural number. */
  function Pad4(n: nat): string {
    var d := Decimal(n);
    if |d| >= 4 then d else Zeros(4 - |d|) + d
  }

  function Zeros(k: nat): (s: string)
    ensures |s| == k && forall c | c in s :: c == '0'
  {
    seq(k, _ => '0')
  }

  lemma {:induction false} ZerosDoNotCount(k: nat, s: string)
    ensures Value(Zeros(k) + s) == Value(s)
    decreases k + |s|
  {
    var z := Zeros(k) + s;
    if s != [] {
      assert z[..|z| - 1] == Zeros(k) + s[..|s| - 1];
      ZerosDoNotCount(k, s[..|s| - 1]);
    } else if k > 0 {
      assert z[..|z| - 1] == Zeros(k - 1) + [];
      ZerosDoNotCount(k - 1, []);
    }
  }

  /** Zero padding keeps every index apart, also beyond 9999 where the width grows. */
  lemma Pad4Injective(m: nat, n: nat)
    requires Pad4(m) == Pad4(n)
    ensures m == n
  {
    ValueOfPad4(m);
    ValueOfPad4(n);
  }

  lemma ValueOfPad4(n: nat)
    ensures Value(Pad4(n)) == n
  {
    ValueOfDecimal(n);
    if |Decimal(n)| < 4 {
      ZerosDoNotCount(4 - |Decimal(n)|, Decimal(n));
    }
  }

  /** No number is printed with a leading zero, and padding fills up to four digits and no further. */
  lemma {:induction false} NoLeadingZero(n: nat)
    ensures n > 0 ==> Decimal(n)[0] != '0'
  {
    if n >= 10 {
      NoLeadingZero(n / 10);
    }
  }

  lemma Pad4Width(n: nat)
    ensures |Pad4(n)| >= 4
    ensures n < 10000 ==> |Pad4(n)| == 4
    ensures n >= 1000 ==> Pad4(n) == Decimal(n)
  {
    if n < 10000 {
      assert |Decimal(n)| <= 4;
    }
    if n >= 1000 {
      assert n / 10 >= 100 && n / 10 / 10 >= 10;
      assert |Decimal(n / 10 / 10)| >= 2;
    }
  }

  // ---------- strings.Split with a one-element separator, on text and on bytes ----------

  /** The first position of `c`, or |s|. */
  function IndexOf<T(==)>(s: seq<T>, c: T): (i: nat)
    ensures i <= |s| && c !in s[..i] && (i < |s| ==> s[i] == c)
    ensures c in s <==> i < |s|
  {
    if s == [] then 0
    else if s[0] == c then 0
    else
      var i := IndexOf(s[1..], c);
      assert s[..i + 1] == [s[0]] + s[1..][..i];
      i + 1
  }

  function SplitOn<T(==)>(s: seq<T>, c: T): (parts: seq<seq<T>>)
    ensures |parts| >= 1
  {
    var i := IndexOf(s, c);
    if i == |s| then [s] else [s[..i]] + SplitOn(s[i + 1..], c)
  }

  function JoinWith<T>(parts: seq<seq<T>>, c: T): seq<T>
    requires |parts| >= 1
  {
    if |parts| == 1 then parts[0] else parts[0] + [c] + JoinWith(parts[1..], c)
  }

  /** Joining the pieces gives the string back, and no piece holds the separator. */
  lemma {:induction false} SplitRejoins<T>(s: seq<T>, c: T)
    ensures JoinWith(SplitOn(s, c), c) == s
    ensures forall k | 0 <= k < |SplitOn(s, c)| :: c !in SplitOn(s, c)[k]
    decreases |s|
  {
    var i := IndexOf(s, c);
    if i == |s| {
      assert s[..i] == s;
    } else {
      var rest := SplitOn(s[i + 1..], c);
      SplitRejoins(s[i + 1..], c);
      JoinFirst(s[..i], rest, c);
      assert s == s[..i] + [c] + s[i + 1..];
    }
  }

  lemma JoinFirst<T>(first: seq<T>, rest: seq<seq<T>>, c: T)
    requires rest != []
    ensures JoinWith([first] + rest, c) == first + [c] + JoinWith(rest, c)
  {
    assert ([first] + rest)[1..] == rest;
  }

  lemma IndexAfterPrefix<T>(a: seq<T>, c: T, b: seq<T>)
    requires c !in a
    ensures IndexOf(a + [c] + b, c) == |a|
  {
    var s := a + [c] + b;
    assert s[|a|] == c;
    assert forall k | 0 <= k < |a| :: s[k] == a[k];
  }

  /** A separator-free first piece is split off as it is. */
  lemma SplitHead<T>(a: seq<T>, c: T, b: seq<T>)
    requires c !in a
    ensures SplitOn(a + [c] + b, c) == [a] + SplitOn(b, c)
  {
    IndexAfterPrefix(a, c, b);
    var s := a + [c] + b;
    assert s[..|a|] == a && s[|a| + 1..] == b;
  }

  lemma SplitNone<T>(a: seq<T>, c: T)
    requires c !in a
    ensures SplitOn(a, c) == [a]
  {
    assert IndexOf(a, c) == |a|;
  }

  /** The converse of SplitRejoins: pieces without the separator are split off again as they were. */
  lemma {:induction false} SplitOfJoin<T>(parts: seq<seq<T>>, c: T)
    requires parts != [] && forall k | 0 <= k < |parts| :: c !in parts[k]
    ensures SplitOn(JoinWith(parts, c), c) == parts
  {
    if |parts| == 1 {
      SplitNone(parts[0], c);
    } else {
      SplitOfJoin(parts[1..], c);
      SplitHead(parts[0], c, JoinWith(parts[1..], c));
    }
  }
}
