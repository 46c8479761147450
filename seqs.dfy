/** Mapping and filtering sequences, the two shapes every extractor and every
    section builder takes. Map is a sequence comprehension; Filter is defined
    by its last element, matching the order in which a Python loop appends to
    its result list. */
module Seqs {

  /** Applies `f` to every element, keeping the order. */
  function Map<A, B>(f: A -> B, s: seq<A>): seq<B> {
    seq(|s|, k requires 0 <= k < |s| => f(s[k]))
  }

  /** The `i`-th image is the image of the `i`-th element. */
  lemma MapAt<A, B>(f: A -> B, s: seq<A>, i: nat)
    requires i < |s|
    ensures |Map(f, s)| == |s| && Map(f, s)[i] == f(s[i])
  {
  }

  /** Four appends to an empty list give the four-element list. */
  lemma Appended4<T>(a: T, b: T, c: T, d: T)
    ensures [] + [a] + [b] + [c] + [d] == [a, b, c, d]
  {
  }

  /** Eight appends to an empty list give the eight-element list. */
  lemma Appended8<T>(a: T, b: T, c: T, d: T, e: T, f: T, g: T, h: T)
    ensures [] + [a] + [b] + [c] + [d] + [e] + [f] + [g] + [h] == [a, b, c, d, e, f, g, h]
  {
  }

  lemma MapSnoc<A, B>(f: A -> B, s: seq<A>, x: A)
    ensures Map(f, s + [x]) == Map(f, s) + [f(x)]
  {
  }

  /** The mapped sequence holds exactly the images of the elements. */
  lemma MapHas<A, B>(f: A -> B, s: seq<A>, y: B)
    ensures y in Map(f, s) <==> exists x :: x in s && y == f(x)
  {
    if y in Map(f, s) {
      var k :| 0 <= k < |s| && Map(f, s)[k] == y;
      assert s[k] in s;
    }
    if exists x :: x in s && y == f(x) {
      var x :| x in s && y == f(x);
      var k :| 0 <= k < |s| && s[k] == x;
      assert Map(f, s)[k] == y;
    }
  }

  /** Concatenation is associative. */
  lemma Assoc<T>(a: seq<T>, b: seq<T>, c: seq<T>)
    ensures (a + b) + c == a + (b + c)
  {
  }

  lemma MapAppend<A, B>(f: A -> B, s: seq<A>, t: seq<A>)
    ensures Map(f, s + t) == Map(f, s) + Map(f, t)
  {
  }

  /** The elements that satisfy `p`, in their original order. */
  function Filter<T>(p: T -> bool, s: seq<T>): seq<T> {
    if s == [] then []
    else Filter(p, s[..|s| - 1]) + (if p(s[|s| - 1]) then [s[|s| - 1]] else [])
  }

  lemma FilterSnoc<T>(p: T -> bool, s: seq<T>, x: T)
    ensures Filter(p, s + [x]) == Filter(p, s) + (if p(x) then [x] else [])
  {
    assert (s + [x])[..|s|] == s;
  }

  lemma FilterStep<T>(p: T -> bool, s: seq<T>, k: nat)
    requires k < |s|
    ensures Filter(p, s[..k + 1]) == Filter(p, s[..k]) + (if p(s[k]) then [s[k]] else [])
  {
    assert s[..k + 1][..k] == s[..k];
  }

  /** The filter keeps only elements of `s` that satisfy `p`, and no more of them. */
  lemma {:induction false} FilterSound<T>(p: T -> bool, s: seq<T>, x: T)
    requires x in Filter(p, s)
    ensures x in s && p(x)
  {
    var init := s[..|s| - 1];
    if x in Filter(p, init) {
      FilterSound(p, init, x);
      assert init <= s;
    }
  }

  lemma {:induction false} FilterLength<T>(p: T -> bool, s: seq<T>)
    ensures |Filter(p, s)| <= |s|
  {
    if s != [] {
      FilterLength(p, s[..|s| - 1]);
    }
  }

  /** Everything in `s` that satisfies `p` survives the filter. */
  lemma {:induction false} FilterKeeps<T>(p: T -> bool, s: seq<T>, x: T)
    requires x in s && p(x)
    ensures x in Filter(p, s)
  {
    var last := s[|s| - 1];
    assert s == s[..|s| - 1] + [last];
    if x != last {
      FilterKeeps(p, s[..|s| - 1], x);
    }
  }

  /** A prefix of `s` filters to a prefix of the filtered `s`. */
  lemma {:induction false} FilterPrefix<T>(p: T -> bool, s: seq<T>, n: nat)
    requires n <= |s|
    ensures Filter(p, s[..n]) <= Filter(p, s)
    decreases |s| - n
  {
    if n < |s| {
      FilterPrefix(p, s, n + 1);
      assert s[..n + 1][..n] == s[..n];
    } else {
      assert s[..n] == s;
    }
  }
}
