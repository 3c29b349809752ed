/** The order `Array.prototype.sort()` uses when it is given no comparator: strings are
    compared character by character, and a proper prefix comes first. The model compares
    Unicode scalar values; JavaScript compares UTF-16 code units, which orders the same
    way except between astral characters and U+E000..U+FFFF. */
module StringOrder {

  predicate LexLe(a: string, b: string)
    decreases |a|
  {
    |a| == 0 || (|b| > 0 && (a[0] < b[0] || (a[0] == b[0] && LexLe(a[1..], b[1..]))))
  }

  lemma {:induction false} LexLeReflexive(a: string)
    ensures LexLe(a, a)
    decreases |a|
  {
    if |a| > 0 { LexLeReflexive(a[1..]); }
  }

  lemma {:induction false} LexLeTotal(a: string, b: string)
    ensures LexLe(a, b) || LexLe(b, a)
    decreases |a|
  {
    if |a| > 0 && |b| > 0 && a[0] == b[0] { LexLeTotal(a[1..], b[1..]); }
  }

  lemma {:induction false} LexLeAntisymmetric(a: string, b: string)
    requires LexLe(a, b) && LexLe(b, a)
    ensures a == b
    decreases |a|
  {
    if |a| > 0 {
      LexLeAntisymmetric(a[1..], b[1..]);
      assert a == [a[0]] + a[1..] && b == [b[0]] + b[1..];
    }
  }

  lemma {:induction false} LexLeTransitive(a: string, b: string, c: string)
    requires LexLe(a, b) && LexLe(b, c)
    ensures LexLe(a, c)
    decreases |a|
  {
    if |a| > 0 && a[0] == b[0] && b[0] == c[0] {
      LexLeTransitive(a[1..], b[1..], c[1..]);
    }
  }

  /** Every pair of positions is in order (not just neighbours). */
  predicate Sorted(s: seq<string>) {
    forall i, j :: 0 <= i < j < |s| ==> LexLe(s[i], s[j])
  }

  // ---------------------------------------------------------------- the sort as a function

  function Insert(x: string, s: seq<string>): (r: seq<string>)
    requires Sorted(s)
    ensures Sorted(r)
    ensures multiset(r) == multiset(s) + multiset{x}
    decreases |s|
  {
    if |s| == 0 then [x]
    else if LexLe(x, s[0]) then
      assert forall j :: 0 < j < |s| ==> LexLe(x, s[j]) by {
        forall j | 0 < j < |s| ensures LexLe(x, s[j]) { LexLeTransitive(x, s[0], s[j]); }
      }
      [x] + s
    else
      LexLeTotal(x, s[0]);
      var rest := Insert(x, s[1..]);
      assert s == [s[0]] + s[1..];
      assert forall j :: 0 <= j < |rest| ==> LexLe(s[0], rest[j]) by {
        forall j | 0 <= j < |rest| ensures LexLe(s[0], rest[j]) {
          assert rest[j] in multiset(rest);
          if rest[j] == x {
          } else {
            assert rest[j] in multiset(s[1..]);
            var k :| 0 <= k < |s[1..]| && s[1..][k] == rest[j];
            assert s[k + 1] == rest[j];
          }
        }
      }
      [s[0]] + rest
  }

  /** The order `companyUrls.sort()` leaves the URLs in. */
  function SortStrings(s: seq<string>): (r: seq<string>)
    ensures Sorted(r)
    ensures multiset(r) == multiset(s)
    decreases |s|
  {
    if |s| == 0 then []
    else
      assert s == [s[0]] + s[1..];
      Insert(s[0], SortStrings(s[1..]))
  }

  lemma SortedTail(s: seq<string>)
    requires Sorted(s) && |s| > 0
    ensures Sorted(s[1..])
  {
  }

  lemma SortedHeadIsLeast(s: seq<string>, x: string)
    requires Sorted(s) && x in multiset(s)
    ensures LexLe(s[0], x)
  {
    var i :| 0 <= i < |s| && s[i] == x;
    if i == 0 { LexLeReflexive(x); }
  }

  lemma MultisetTail(s: seq<string>)
    requires |s| > 0
    ensures multiset(s[1..]) == multiset(s) - multiset{s[0]}
  {
    assert s == [s[0]] + s[1..];
  }

  /** Two sorted arrangements of the same strings start with the same string and go on
      with the same strings. */
  lemma SortedSameHead(a: seq<string>, b: seq<string>)
    requires Sorted(a) && Sorted(b) && |a| > 0 && |b| > 0
    requires multiset(a) == multiset(b)
    ensures a[0] == b[0] && multiset(a[1..]) == multiset(b[1..])
  {
    assert a[0] in multiset(a) && b[0] in multiset(b);
    SortedHeadIsLeast(a, b[0]);
    SortedHeadIsLeast(b, a[0]);
    LexLeAntisymmetric(a[0], b[0]);
    MultisetTail(a);
    MultisetTail(b);
  }

  /** Two sorted arrangements of the same strings are the same sequence: the sorted
      order does not depend on the order the strings came in. */
  lemma {:induction false} SortedUnique(a: seq<string>, b: seq<string>)
    requires Sorted(a) && Sorted(b)
    requires multiset(a) == multiset(b)
    ensures a == b
    decreases |a|
  {
    assert |a| == |multiset(a)| == |multiset(b)| == |b|;
    if |a| > 0 {
      SortedSameHead(a, b);
      SortedTail(a);
      SortedTail(b);
      SortedUnique(a[1..], b[1..]);
      assert a == [a[0]] + a[1..] && b == [b[0]] + b[1..];
    }
  }

  /** Sorting forgets the original order. */
  lemma SortStringsPermutationInvariant(u: seq<string>, v: seq<string>)
    requires multiset(u) == multiset(v)
    ensures SortStrings(u) == SortStrings(v)
  {
    SortedUnique(SortStrings(u), SortStrings(v));
  }

  // ---------------------------------------------------------------- the sort in place

  method SwapAdjacent(a: array<string>, j: nat)
    requires 0 < j < a.Length
    modifies a
    ensures a[j - 1] == old(a[j]) && a[j] == old(a[j - 1])
    ensures forall k :: 0 <= k < a.Length && k != j && k != j - 1 ==> a[k] == old(a[k])
    ensures multiset(a[..]) == old(multiset(a[..]))
  {
    a[j - 1], a[j] := a[j], a[j - 1];
  }

  /** `arr.sort()`: sorts the caller's array in place and leaves it the same strings in
      the order of `SortStrings`. */
  method SortInPlace(a: array<string>)
    modifies a
    ensures Sorted(a[..])
    ensures multiset(a[..]) == old(multiset(a[..]))
    ensures a[..] == SortStrings(old(a[..]))
  {
    var i := 0;
    while i < a.Length
      invariant 0 <= i <= a.Length
      invariant Sorted(a[..i])
      invariant multiset(a[..]) == old(multiset(a[..]))
    {
      var j := i;
      while j > 0 && !LexLe(a[j - 1], a[j])
        invariant 0 <= j <= i
        invariant forall p, q :: 0 <= p < q <= i && p != j && q != j ==> LexLe(a[p], a[q])
        invariant forall q :: j < q <= i ==> LexLe(a[j], a[q])
        invariant multiset(a[..]) == old(multiset(a[..]))
      {
        LexLeTotal(a[j - 1], a[j]);
        SwapAdjacent(a, j);
        j := j - 1;
      }
      forall p | 0 <= p < j ensures LexLe(a[p], a[j]) {
        if p < j - 1 { LexLeTransitive(a[p], a[j - 1], a[j]); }
      }
      i := i + 1;
    }
    assert a[..a.Length] == a[..];
    SortedUnique(a[..], SortStrings(old(a[..])));
  }
}
