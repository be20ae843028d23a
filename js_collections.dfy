/**
 * The JavaScript built-ins the dashboard's derivations lean on:
 * `[...new Set(xs)]` (distinct values in first-appearance order),
 * `toLowerCase` and `includes` on strings.
 */
module JsCollections {

  /** The distinct values of s, each once, in the order of first appearance: what a Set yields when spread. */
  function Distinct<T(==)>(s: seq<T>): (d: seq<T>)
    ensures forall i | 0 <= i < |s| :: s[i] in d
    ensures forall i | 0 <= i < |d| :: d[i] in s
    ensures forall i, j | 0 <= i < j < |d| :: d[i] != d[j]
    decreases |s|
  {
    if s == [] then []
    else
      var init := Distinct(s[..|s| - 1]);
      if s[|s| - 1] in init then init else init + [s[|s| - 1]]
  }

  /** The position where x first occurs in s. */
  function FirstIndex<T(==)>(s: seq<T>, x: T): (k: nat)
    requires x in s
    ensures k < |s| && s[k] == x
    ensures forall i | 0 <= i < k :: s[i] != x
  {
    if s[0] == x then 0 else 1 + FirstIndex(s[1..], x)
  }

  lemma {:induction false} FirstIndexPrefix<T>(s: seq<T>, n: nat, x: T)
    requires n <= |s| && x in s[..n]
    ensures FirstIndex(s, x) == FirstIndex(s[..n], x)
    decreases n
  {
    if s[0] != x {
      assert s[..n][0] == s[0];
      assert s[1..][..n - 1] == s[..n][1..];
      FirstIndexPrefix(s[1..], n - 1, x);
    }
  }

  lemma FirstIndexOfNew<T>(s: seq<T>)
    requires |s| > 0 && s[|s| - 1] !in s[..|s| - 1]
    ensures FirstIndex(s, s[|s| - 1]) == |s| - 1
  {
    var n := |s| - 1;
    forall i | 0 <= i < n ensures s[i] != s[n] {
      assert s[i] == s[..n][i];
    }
  }

  /** Every value of d occurs in s, and d lists them in the order of their first occurrence there. */
  predicate InFirstOrder<T(==)>(s: seq<T>, d: seq<T>) {
    && (forall k | 0 <= k < |d| :: d[k] in s)
    && (forall i, j | 0 <= i < j < |d| :: FirstIndex(s, d[i]) < FirstIndex(s, d[j]))
  }

  /** Distinct lists values in the order in which each first occurs in s. */
  lemma {:induction false} DistinctOrder<T>(s: seq<T>)
    ensures InFirstOrder(s, Distinct(s))
    decreases |s|
  {
    if s != [] {
      var n := |s| - 1;
      var init := Distinct(s[..n]);
      DistinctOrder(s[..n]);
      if s[n] in init {
        assert Distinct(s) == init;
        OrderInLonger(s, init);
      } else {
        assert Distinct(s) == init + [s[n]];
        assert s[n] !in s[..n];
        OrderWithNew(s, init);
      }
    }
  }

  /** An order of first occurrences in s[..n] is still one in s. */
  lemma OrderInLonger<T>(s: seq<T>, init: seq<T>)
    requires |s| > 0 && InFirstOrder(s[..|s| - 1], init)
    ensures InFirstOrder(s, init)
  {
    var n := |s| - 1;
    forall k | 0 <= k < |init| ensures init[k] in s {
      FirstIndexPrefix(s, n, init[k]);
    }
    forall i, j | 0 <= i < j < |init|
      ensures FirstIndex(s, init[i]) < FirstIndex(s, init[j])
    {
      OrderKept(s, n, init, i, j);
    }
  }

  /** A last element not seen before extends the order: it first occurs after every earlier value. */
  lemma OrderWithNew<T>(s: seq<T>, init: seq<T>)
    requires |s| > 0 && InFirstOrder(s[..|s| - 1], init)
    requires s[|s| - 1] !in s[..|s| - 1]
    ensures InFirstOrder(s, init + [s[|s| - 1]])
  {
    var n := |s| - 1;
    OrderInLonger(s, init);
    forall k | 0 <= k < |init| ensures FirstIndex(s, init[k]) < n {
      FirstIndexPrefix(s, n, init[k]);
    }
    FirstIndexOfNew(s);
    var d := init + [s[n]];
    forall k | 0 <= k < |d| ensures d[k] in s {
      if k < |init| { assert d[k] == init[k]; }
    }
    forall i, j | 0 <= i < j < |d|
      ensures FirstIndex(s, d[i]) < FirstIndex(s, d[j])
    {
      assert d[i] == init[i];
      if j < |init| {
        assert d[j] == init[j];
      } else {
        assert d[j] == s[n];
      }
    }
  }

  lemma OrderKept<T>(s: seq<T>, n: nat, init: seq<T>, i: nat, j: nat)
    requires n <= |s| && i < j < |init|
    requires forall k | 0 <= k < |init| :: init[k] in s[..n]
    requires FirstIndex(s[..n], init[i]) < FirstIndex(s[..n], init[j])
    ensures FirstIndex(s, init[i]) < FirstIndex(s, init[j])
  {
    FirstIndexPrefix(s, n, init[i]);
    FirstIndexPrefix(s, n, init[j]);
  }

  function LowerChar(c: char): char {
    if 'A' <= c <= 'Z' then (c as int + 32) as char else c
  }

  /**
   * toLowerCase, on the ASCII letters: no capital is left, each capital
   * becomes the small letter at the same place in the alphabet, and every
   * other character is kept.
   */
  function Lower(s: string): (r: string)
    ensures |r| == |s|
    ensures forall i | 0 <= i < |r| :: !('A' <= r[i] <= 'Z')
    ensures forall i | 0 <= i < |s| && 'A' <= s[i] <= 'Z' ::
              'a' <= r[i] <= 'z' && r[i] as int - 'a' as int == s[i] as int - 'A' as int
    ensures forall i | 0 <= i < |s| && !('A' <= s[i] <= 'Z') :: r[i] == s[i]
  {
    seq(|s|, i requires 0 <= i < |s| => LowerChar(s[i]))
  }

  /** Lower-casing twice is lower-casing once. */
  lemma LowerIdempotent(s: string)
    ensures Lower(Lower(s)) == Lower(s)
  {
    var l := Lower(s);
    assert forall i | 0 <= i < |l| :: Lower(l)[i] == l[i];
  }

  /** `s.includes(sub)`: sub occurs in s at some position. */
  function Includes(s: string, sub: string): bool
    decreases |s|
  {
    if |sub| <= |s| && s[..|sub|] == sub then true
    else if s == [] then false
    else Includes(s[1..], sub)
  }

  /** The occurrence Includes finds. */
  lemma {:induction false} IncludesWitness(s: string, sub: string) returns (k: nat)
    requires Includes(s, sub)
    ensures k + |sub| <= |s| && s[k..k + |sub|] == sub
    decreases |s|
  {
    if |sub| <= |s| && s[..|sub|] == sub {
      k := 0;
    } else {
      var k1 := IncludesWitness(s[1..], sub);
      k := k1 + 1;
      assert s[k..k + |sub|] == s[1..][k1..k1 + |sub|];
    }
  }

  /** Any occurrence is found. */
  lemma {:induction false} IncludesAt(s: string, sub: string, k: nat)
    requires k + |sub| <= |s| && s[k..k + |sub|] == sub
    ensures Includes(s, sub)
    decreases k
  {
    if k > 0 && !(|sub| <= |s| && s[..|sub|] == sub) {
      assert s[1..][k - 1..k - 1 + |sub|] == s[k..k + |sub|];
      IncludesAt(s[1..], sub, k - 1);
    }
  }
}
