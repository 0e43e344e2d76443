/** Filtering a sequence, element-type independent. */
module Sequences {

  function Filter<T>(s: seq<T>, p: T -> bool): seq<T> {
    if s == [] then [] else One(s[0], p) + Filter(s[1..], p)
  }

  function One<T>(x: T, p: T -> bool): seq<T> {
    if p(x) then [x] else []
  }

  lemma {:induction false} FilterConcat<T>(a: seq<T>, b: seq<T>, p: T -> bool)
    ensures Filter(a + b, p) == Filter(a, p) + Filter(b, p)
  {
    if a == [] {
      assert a + b == b;
    } else {
      assert (a + b)[1..] == a[1..] + b;
      FilterConcat(a[1..], b, p);
    }
  }

  lemma {:induction false} FilterMid<T>(a: seq<T>, x: T, b: seq<T>, p: T -> bool)
    ensures Filter(a + [x] + b, p) == Filter(a, p) + One(x, p) + Filter(b, p)
  {
    FilterConcat(a + [x], b, p);
    FilterConcat(a, [x], p);
    assert Filter([x], p) == One(x, p);
  }

  lemma {:induction false} FilterAround<T>(s: seq<T>, i: nat, p: T -> bool)
    requires i < |s|
    ensures Filter(s, p) == Filter(s[..i], p) + One(s[i], p) + Filter(s[i + 1..], p)
  {
    assert s == s[..i] + [s[i]] + s[i + 1..];
    FilterMid(s[..i], s[i], s[i + 1..], p);
  }

  lemma {:induction false} FilterReplace<T>(s: seq<T>, i: nat, x: T, p: T -> bool)
    requires i < |s|
    ensures Filter(s[i := x], p) == Filter(s[..i], p) + One(x, p) + Filter(s[i + 1..], p)
  {
    assert s[i := x] == s[..i] + [x] + s[i + 1..];
    FilterMid(s[..i], x, s[i + 1..], p);
  }

  lemma {:induction false} FilterSplit<T>(s: seq<T>, i: nat, p: T -> bool)
    requires i <= |s|
    ensures Filter(s, p) == Filter(s[..i], p) + Filter(s[i..], p)
  {
    assert s == s[..i] + s[i..];
    FilterConcat(s[..i], s[i..], p);
  }

  lemma {:induction false} FilterMember<T>(s: seq<T>, p: T -> bool, x: T)
    ensures x in Filter(s, p) <==> x in s && p(x)
  {
    if s != [] {
      FilterMember(s[1..], p, x);
      assert x in s <==> x == s[0] || x in s[1..];
    }
  }

  lemma {:induction false} FilterAll<T>(s: seq<T>, p: T -> bool)
    requires forall x :: x in s ==> p(x)
    ensures Filter(s, p) == s
  {
    if s != [] {
      FilterAll(s[1..], p);
      assert s[0] in s;
    }
  }

  lemma {:induction false} FilterNone<T>(s: seq<T>, p: T -> bool)
    requires forall x :: x in s ==> !p(x)
    ensures Filter(s, p) == []
  {
    if s != [] {
      FilterNone(s[1..], p);
      assert s[0] in s;
    }
  }

  lemma {:induction false} InsertThenDelete<T>(s: seq<T>, i: nat, x: T)
    requires i <= |s|
    ensures var t := s[..i] + [x] + s[i..];
            |t| == |s| + 1 && t[i] == x && t[..i] + t[i + 1..] == s && forall j :: 0 <= j < i ==> t[j] == s[j]
  {
  }

  lemma {:induction false} DeleteThenInsert<T>(s: seq<T>, i: nat)
    requires i < |s|
    ensures var t := s[..i] + s[i + 1..]; t[..i] + [s[i]] + t[i..] == s
  {
  }

  /** Two elements a filter keeps stood in the same order before. */
  lemma {:induction false} FilterOrder<T>(s: seq<T>, p: T -> bool, i: nat, j: nat) returns (i': nat, j': nat)
    requires i < j < |Filter(s, p)|
    ensures i' < j' < |s| && s[i'] == Filter(s, p)[i] && s[j'] == Filter(s, p)[j]
  {
    var rest := s[1..];
    if !p(s[0]) {
      i', j' := FilterOrder(rest, p, i, j);
      i', j' := i' + 1, j' + 1;
    } else if i > 0 {
      i', j' := FilterOrder(rest, p, i - 1, j - 1);
      i', j' := i' + 1, j' + 1;
    } else {
      var x := Filter(rest, p)[j - 1];
      FilterMember(rest, p, x);
      var k :| 0 <= k < |rest| && rest[k] == x;
      i', j' := 0, k + 1;
    }
  }

  ghost predicate NoDuplicates<T>(s: seq<T>) {
    forall i, j :: 0 <= i < j < |s| ==> s[i] != s[j]
  }

  lemma {:induction false} MultiplicityOne<T>(s: seq<T>, x: T)
    requires NoDuplicates(s)
    ensures multiset(s)[x] == if x in s then 1 else 0
  {
    if s != [] {
      var n := |s| - 1;
      MultiplicityOne(s[..n], x);
      assert s == s[..n] + [s[n]];
    }
  }

  /** Duplicate-free sequences of the same elements are permutations of each other. */
  lemma {:induction false} SameElementsPermute<T>(a: seq<T>, b: seq<T>)
    requires NoDuplicates(a) && NoDuplicates(b)
    requires forall x :: x in a <==> x in b
    ensures multiset(a) == multiset(b)
  {
    forall x ensures multiset(a)[x] == multiset(b)[x] {
      MultiplicityOne(a, x);
      MultiplicityOne(b, x);
    }
  }

  lemma {:induction false} InsertAfter<T>(a: seq<T>, b: seq<T>, c: seq<T>, x: T)
    ensures var s, k := a + b + c, |a| + |b|; s[..k] + [x] + s[k..] == a + (b + [x]) + c
  {
    var s, k := a + b + c, |a| + |b|;
    assert s[..k] == a + b && s[k..] == c;
  }

  lemma {:induction false} PermutedMembers<T>(a: seq<T>, b: seq<T>, x: T)
    requires multiset(a) == multiset(b)
    ensures x in a <==> x in b
  {
    assert x in a <==> x in multiset(a);
    assert x in b <==> x in multiset(b);
  }

  lemma {:induction false} FilterLast<T>(s: seq<T>, p: T -> bool)
    requires s != [] && p(s[|s| - 1])
    ensures Filter(s, p) == Filter(s[..|s| - 1], p) + [s[|s| - 1]]
  {
    var n := |s| - 1;
    FilterSplit(s, n, p);
    assert s[n..] == [s[n]];
  }

  lemma {:induction false} ConcatAt<T>(a: seq<T>, b: seq<T>, c: seq<T>, i: nat)
    requires i < |a| + |b| + |c|
    ensures (a + b + c)[i] ==
      if i < |a| then a[i] else if i < |a| + |b| then b[i - |a|] else c[i - |a| - |b|]
  {
  }

  lemma {:induction false} MiddleAt<T>(a: seq<T>, b: seq<T>, c: seq<T>, i: nat)
    requires i < |b|
    ensures |a + b + c| == |a| + |b| + |c| && (a + b + c)[|a| + i] == b[i]
  {
  }

  lemma {:induction false} AroundMiddle<T>(m: seq<T>, f: nat, b: seq<T>, i: nat)
    requires f <= |m| && i < |m|
    ensures |m[..f] + b + m[f..]| == |m| + |b|
    ensures (m[..f] + b + m[f..])[if i < f then i else i + |b|] == m[i]
  {
  }

  lemma {:induction false} CutFirst<T>(a: seq<T>, b: seq<T>, d: seq<T>, c: nat)
    requires c <= |a|
    ensures (a + b + d)[..c] == a[..c] && (a + b + d)[c..] == a[c..] + b + d
  {
  }

  lemma {:induction false} CutTwice<T>(s: seq<T>, c: nat, f: nat)
    requires c <= f <= |s|
    ensures s[..f][..c] == s[..c] && s[..f][c..] == s[c..f] && s[c..] == s[c..f] + s[f..]
  {
  }

  lemma {:induction false} InTheMiddle<T>(a: seq<T>, x: seq<T>, v: T, y: seq<T>)
    ensures |a| + |x| < |a + (x + [v] + y)| && (a + (x + [v] + y))[|a| + |x|] == v
  {
  }

  lemma {:induction false} DropMore<T>(s: seq<T>, i: nat)
    requires i < |s|
    ensures s[i..][0] == s[i] && s[i..][1..] == s[i + 1..]
  {
  }

  lemma {:induction false} InsertedAt<T>(s: seq<T>, p: nat, x: T, q: nat)
    requires p <= |s| && q <= |s|
    ensures |s[..p] + [x] + s[p..]| == |s| + 1
    ensures (s[..p] + [x] + s[p..])[q] == if q < p then s[q] else if q == p then x else s[q - 1]
  {
  }

  lemma {:induction false} DeleteAfter<T>(a: seq<T>, v: T, b: seq<T>, c: seq<T>)
    ensures var s := a + [v] + b + c; |a| < |s| && s[..|a|] + s[|a| + 1..] == a + b + c
    ensures a + [v] + b + c == a + ([v] + b) + c
  {
  }

  lemma {:induction false} PutBetween<T>(a: seq<T>, x: T, b: seq<T>)
    ensures var s := a + b; s[..|a|] + [x] + s[|a|..] == a + [x] + b
  {
  }

  lemma {:induction false} SliceStep<T>(s: seq<T>, i: nat, n: nat)
    requires i < n <= |s|
    ensures s[i..n] == [s[i]] + s[i + 1..n] && s[..i + 1] == s[..i] + [s[i]]
  {
  }

  lemma {:induction false} SliceParts<T>(s: seq<T>, d: nat, i: nat)
    requires d <= i < |s|
    ensures s[d..] == s[d..i] + [s[i]] + s[i + 1..] && (d == i ==> s[d..i] == [])
  {
  }

  lemma {:induction false} SlicePast<T>(s: seq<T>, c: nat, i: nat, f: nat)
    requires c < i < f <= |s|
    ensures s[c..f] == [s[c]] + s[c + 1..f] && s[c + 1..f] == s[c + 1..i] + [s[i]] + s[i + 1..f]
  {
  }

  lemma {:induction false} SliceSplit<T>(s: seq<T>, i: nat, n: nat)
    requires i <= n <= |s|
    ensures s[i..] == s[i..n] + s[n..]
  {
  }
}
