/** Cutting a sequence into consecutive parts of equal size. */
module Slices {

  function Min(a: int, b: int): int {
    if a < b then a else b
  }

  /** How many parts of size `size` cover `n` elements: Go's (n + size - 1) / size. */
  function PartCount(n: nat, size: nat): (c: nat)
    requires size > 0
  {
    (n + size - 1) / size
  }

  /** Part j of the first n elements: positions [j*size, min((j+1)*size, n)). */
  function Part<T>(s: seq<T>, j: nat, size: nat, n: nat): seq<T>
    requires n <= |s|
  {
    var lo, hi := Min(j * size, n), Min((j + 1) * size, n);
    assert 0 <= j * size <= (j + 1) * size;
    s[lo..hi]
  }

  lemma PartCountBounds(n: nat, size: nat)
    requires size > 0
    ensures var c := PartCount(n, size); c * size >= n && (c > 0 ==> (c - 1) * size < n) && (c == 0 <==> n == 0)
  {
    var c, r := PartCount(n, size), (n + size - 1) % size;
    assert n + size - 1 == size * c + r;
    assert c * size == n + size - 1 - r;
    assert (c - 1) * size == c * size - size;
    if n == 0 { assert (size - 1) / size == 0; }
  }

  lemma MulMono(a: nat, b: nat, size: nat)
    requires a <= b
    ensures a * size <= b * size
  {
  }

  /** Only parts before the count are inside. */
  lemma PartInside(j: nat, n: nat, size: nat)
    requires size > 0
    ensures j < PartCount(n, size) <==> j * size < n
  {
    PartCountBounds(n, size);
    var c := PartCount(n, size);
    if j < c { MulMono(j, c - 1, size); } else { MulMono(c, j, size); }
  }

  /** Element n starts a new part exactly when size divides n; otherwise it extends the last one. */
  lemma PartCountStep(n: nat, size: nat)
    requires size > 0
    ensures n % size == 0 ==> PartCount(n + 1, size) == PartCount(n, size) + 1 && PartCount(n, size) * size == n
    ensures n % size != 0 ==> PartCount(n + 1, size) == PartCount(n, size) && PartCount(n, size) * size > n
    ensures n % size != 0 ==> PartCount(n, size) > 0
  {
    var q, r := n / size, n % size;
    assert n == q * size + r;
    PartCountInside(n, size, q, r);
    PartCountInside(n + 1, size, q, r + 1);
  }

  /** With r more than q whole parts there is one part more, unless r is 0. */
  lemma PartCountInside(n: nat, size: nat, q: nat, r: nat)
    requires n == q * size + r && r <= size && size > 0
    ensures PartCount(n, size) == if r == 0 then q else q + 1
    ensures (q + 1) * size == q * size + size
  {
    assert (q + 1) * size == q * size + size;
    assert (q - 1) * size == q * size - size;
    PartCountIs(n, size, if r == 0 then q else q + 1);
  }

  lemma PartCountIs(n: nat, size: nat, c: nat)
    requires size > 0 && c * size >= n && (c > 0 ==> (c - 1) * size < n)
    ensures PartCount(n, size) == c
  {
    PartCountBounds(n, size);
    var d := PartCount(n, size);
    if d < c { MulMono(d, c - 1, size); }
    if c < d { MulMono(c, d - 1, size); }
  }

  function Flatten<T>(parts: seq<seq<T>>): seq<T> {
    if parts == [] then [] else Flatten(parts[..|parts| - 1]) + parts[|parts| - 1]
  }

  /** The first c parts, concatenated, are a prefix. */
  lemma {:induction false} PartsOfPrefix<T>(s: seq<T>, size: nat, c: nat, parts: seq<seq<T>>)
    requires size > 0 && |parts| == c
    requires forall j | 0 <= j < c :: parts[j] == Part(s, j, size, |s|)
    ensures 0 <= Min(c * size, |s|) <= |s| && Flatten(parts) == s[..Min(c * size, |s|)]
  {
    if c > 0 {
      PartsOfPrefix(s, size, c - 1, parts[..c - 1]);
      MulMono(c - 1, c, size);
      var lo, hi := Min((c - 1) * size, |s|), Min(c * size, |s|);
      assert parts[c - 1] == s[lo..hi];
      assert s[..hi] == s[..lo] + s[lo..hi];
    }
  }

  /** All the parts, concatenated, are the sequence. */
  lemma PartsCover<T>(s: seq<T>, size: nat, parts: seq<seq<T>>)
    requires size > 0 && |parts| == PartCount(|s|, size)
    requires forall j | 0 <= j < |parts| :: parts[j] == Part(s, j, size, |s|)
    ensures Flatten(parts) == s
  {
    PartsOfPrefix(s, size, |parts|, parts);
    PartCountBounds(|s|, size);
  }
}
