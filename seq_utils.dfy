/** Array pipelines the modelled code builds from `filter` and from
    `sort(() => Math.random() - 0.5)`. */
module SeqUtils {

  /** `s.filter(keep)`: keeps exactly the elements that pass, each as often as it occurs,
      in their original order. */
  function Filter<T(!new)>(s: seq<T>, keep: T -> bool): (r: seq<T>)
    ensures |r| <= |s|
    ensures forall x :: multiset(r)[x] == if keep(x) then multiset(s)[x] else 0
    ensures forall i :: 0 <= i < |r| ==> keep(r[i]) && r[i] in s
    decreases |s|
  {
    if |s| == 0 then []
    else
      var rest := Filter(s[1..], keep);
      assert s == [s[0]] + s[1..];
      if keep(s[0]) then [s[0]] + rest else rest
  }

  /** Filtering distributes over concatenation, so it keeps relative order. */
  lemma {:induction false} FilterConcat<T(!new)>(a: seq<T>, b: seq<T>, keep: T -> bool)
    ensures Filter(a + b, keep) == Filter(a, keep) + Filter(b, keep)
    decreases |a|
  {
    if |a| > 0 {
      assert (a + b)[1..] == a[1..] + b;
      FilterConcat(a[1..], b, keep);
    } else {
      assert a + b == b;
    }
  }

  /** Two filters whose conditions never hold together select at most all the elements. */
  lemma {:induction false} DisjointFiltersBound<T(!new)>(s: seq<T>, p: T -> bool, q: T -> bool)
    requires forall x :: !(p(x) && q(x))
    ensures |Filter(s, p)| + |Filter(s, q)| <= |s|
    decreases |s|
  {
    if |s| > 0 {
      DisjointFiltersBound(s[1..], p, q);
    }
  }

  /** Filters whose conditions agree on every element select the same elements. */
  lemma {:induction false} FilterAgree<T(!new)>(s: seq<T>, p: T -> bool, q: T -> bool)
    requires forall x :: p(x) == q(x)
    ensures Filter(s, p) == Filter(s, q)
    decreases |s|
  {
    if |s| > 0 {
      FilterAgree(s[1..], p, q);
    }
  }

  /** Elements at distinct positions are distinct. */
  predicate Distinct<T(==)>(s: seq<T>) {
    forall i, j :: 0 <= i < j < |s| ==> s[i] != s[j]
  }

  lemma {:induction false} DistinctMultiplicity<T>(s: seq<T>, x: T)
    requires Distinct(s)
    ensures multiset(s)[x] <= 1
    decreases |s|
  {
    if |s| > 0 {
      assert s == [s[0]] + s[1..];
      DistinctMultiplicity(s[1..], x);
      if s[0] == x {
        assert x !in s[1..];
      }
    }
  }

  lemma RepeatedMultiplicity<T>(s: seq<T>, i: nat, j: nat)
    requires i < j < |s| && s[i] == s[j]
    ensures multiset(s)[s[i]] >= 2
  {
    assert s == s[..j] + [s[j]] + s[j + 1..];
    assert s[..j] == s[..i] + [s[i]] + s[i + 1..j];
  }

  /** Taking some of the elements of a sequence without repeats gives no repeats. */
  lemma DistinctSubMultiset<T>(a: seq<T>, b: seq<T>)
    requires Distinct(a) && multiset(b) <= multiset(a)
    ensures Distinct(b)
  {
    forall i, j | 0 <= i < j < |b| ensures b[i] != b[j] {
      if b[i] == b[j] {
        RepeatedMultiplicity(b, i, j);
        DistinctMultiplicity(a, b[i]);
      }
    }
  }

  /** A copy of `s` sorted with a random comparator. The order such a sort produces is up to the
      engine; it is modelled by supplied choices: each step moves the remaining element
      selected by the next choice to the front. Only what every engine guarantees is
      claimed: the result is a rearrangement of `s`. */
  function Scramble<T>(s: seq<T>, picks: seq<nat>): (r: seq<T>)
    ensures multiset(r) == multiset(s)
    ensures |r| == |s|
    decreases |s|
  {
    if |s| == 0 then []
    else
      var k := (if |picks| > 0 then picks[0] else 0) % |s|;
      assert s == s[..k] + [s[k]] + s[k + 1..];
      [s[k]] + Scramble(s[..k] + s[k + 1..], if |picks| > 0 then picks[1..] else [])
  }

  lemma ScrambleMembers<T>(s: seq<T>, picks: seq<nat>)
    ensures forall x :: x in Scramble(s, picks) <==> x in s
  {
    var r := Scramble(s, picks);
    forall x ensures x in r <==> x in s {
      assert x in r <==> x in multiset(r);
      assert x in s <==> x in multiset(s);
    }
  }
}
