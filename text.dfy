/** The few pieces of Python's string and list operators that the layout code relies on. */
module Text {
  function Max(a: int, b: int): int
  {
    if a >= b then a else b
  }

  /** Python's list and string repetition: n copies of x, none when n <= 0. */
  function Copies<T>(x: T, n: int): (s: seq<T>)
    ensures |s| == Max(n, 0)
    ensures forall i :: 0 <= i < |s| ==> s[i] == x
  {
    seq(Max(n, 0), _ => x)
  }

  /** Left alignment in a field of width w: s followed by spaces up to w; a longer s is kept whole. */
  function LJust(s: string, w: int): (r: string)
    ensures |r| == Max(|s|, w)
    ensures r[..|s|] == s
    ensures forall i :: |s| <= i < |r| ==> r[i] == ' '
  {
    s + Copies(' ', w - |s|)
  }

  /** Python's str.join: the parts with sep between each two neighbours. */
  function Join(parts: seq<string>, sep: string): string
  {
    if |parts| == 0 then ""
    else if |parts| == 1 then parts[0]
    else parts[0] + sep + Join(parts[1..], sep)
  }

  /** What str.split(c) puts first: the part of s before the first c, or all of s when there is none. */
  function Before<T(==)>(s: seq<T>, c: T): (r: seq<T>)
    ensures c !in r
    ensures |r| <= |s| && r == s[..|r|]
    ensures |r| < |s| ==> s[|r|] == c
    ensures c !in s ==> r == s
  {
    if |s| == 0 then []
    else if s[0] == c then []
    else [s[0]] + Before(s[1..], c)
  }

  /** What str.split(c, 1) puts second: the part of s after the first c. */
  function After<T(==)>(s: seq<T>, c: T): (r: seq<T>)
    requires c in s
    ensures |r| < |s| && r == s[|s| - |r|..]
    ensures s[..|s| - |r| - 1] == Before(s, c) && s[|s| - |r| - 1] == c
  {
    if s[0] == c then s[1..] else After(s[1..], c)
  }

  /** Splitting at the first occurrence: what comes before and after a c that follows a c-free p. */
  lemma {:induction false} SplitAtFirst<T>(p: seq<T>, c: T, q: seq<T>)
    requires c !in p
    ensures c in p + [c] + q
    ensures Before(p + [c] + q, c) == p
    ensures After(p + [c] + q, c) == q
  {
    var s := p + [c] + q;
    if |p| == 0 {
      assert s == [c] + q;
      assert s[1..] == q;
    } else {
      assert s[0] == p[0] && s[0] != c;
      assert s[1..] == p[1..] + [c] + q;
      SplitAtFirst(p[1..], c, q);
      assert Before(s, c) == [p[0]] + p[1..];
      assert [p[0]] + p[1..] == p;
    }
  }

  /** Growing a prefix by one element, as a loop over s does. */
  lemma PrefixStep<T>(s: seq<T>, i: int)
    requires 0 <= i < |s|
    ensures s[..i + 1] == s[..i] + [s[i]]
    ensures s[..i + 1][..i] == s[..i]
  {
  }

  lemma AppendStep<T>(a: seq<T>, s: seq<T>, i: int)
    requires 0 <= i < |s|
    ensures a + s[..i + 1] == (a + s[..i]) + [s[i]]
  {
    PrefixStep(s, i);
  }
}
